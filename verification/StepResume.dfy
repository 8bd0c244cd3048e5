/** Step-level resume: an attempt takes up the uninterrupted run where saved steps left it (workflow-engine.ts). */
module StepResume {
  import opened Collections
  import opened WorkflowEngine

  ghost predicate DistinctKeys(steps: seq<Step>) {
    forall i, j :: 0 <= i < j < |steps| ==> steps[i].key != steps[j].key
  }

  /** The step's templates do not read {{execution.attempt}}. */
  ghost predicate AttemptBlind(step: Step) {
    && (forall ctx: Context, a: nat :: step.config(ctx.(attempt := a)) == step.config(ctx))
    && (step.runIf.Some? ==> forall ctx: Context, a: nat ::
        step.runIf.value(ctx.(attempt := a)) == step.runIf.value(ctx))
  }

  ghost predicate Blind(steps: seq<Step>) {
    forall i :: 0 <= i < |steps| ==> AttemptBlind(steps[i])
  }

  /** What an uninterrupted run does when every action gives the output `outputs` assigns to its step. */
  datatype Ideal = Ideal(actions: seq<Action>, finished: bool)

  function IdealFrom(steps: seq<Step>, i: nat, ctx: Context, outputs: string -> Json): Ideal
    requires i <= |steps|
    decreases |steps| - i
  {
    if i == |steps| then Ideal([], true)
    else
      var key := steps[i].key;
      match TryStep(steps[i], ctx, Turn(None, Ok(outputs(key)), true))
      case Fail(_) => Ideal([], false)
      case Skip => IdealFrom(steps, i + 1, After(ctx, key, Entry(Null, true)), outputs)
      case Done(config, output) =>
        var rest := IdealFrom(steps, i + 1, After(ctx, key, Entry(output, false)), outputs);
        Ideal([Action(key, config, output)] + rest.actions, rest.finished)
  }

  ghost predicate KeyedFrom(actions: seq<Action>, steps: seq<Step>, i: nat) {
    forall j :: 0 <= j < |actions| ==> IsKeyFrom(actions[j].key, steps, i)
  }

  ghost predicate IsKeyFrom(key: string, steps: seq<Step>, i: nat) {
    exists s :: i <= s < |steps| && steps[s].key == key
  }

  ghost predicate Agree(actions: seq<Action>, outputs: string -> Json) {
    forall j :: 0 <= j < |actions| ==> actions[j].output == outputs(actions[j].key)
  }

  /** No step acts twice in an uninterrupted run. */
  ghost predicate OncePerKey(actions: seq<Action>) {
    forall j, k :: 0 <= j < k < |actions| ==> actions[j].key != actions[k].key
  }

  lemma {:induction false} IdealKeys(steps: seq<Step>, i: nat, ctx: Context, outputs: string -> Json)
    requires i <= |steps| && DistinctKeys(steps)
    ensures var all := IdealFrom(steps, i, ctx, outputs).actions;
            KeyedFrom(all, steps, i) && OncePerKey(all) && Agree(all, outputs)
    decreases |steps| - i
  {
    if i < |steps| {
      match TryStep(steps[i], ctx, Turn(None, Ok(outputs(steps[i].key)), true))
      case Fail(_) =>
      case Skip => IdealKeys(steps, i + 1, After(ctx, steps[i].key, Entry(Null, true)), outputs);
      case Done(_, output) => IdealKeys(steps, i + 1, After(ctx, steps[i].key, Entry(output, false)), outputs);
    }
  }

  ghost predicate InFirst(key: string, all: seq<Action>, n: nat)
    requires n <= |all|
  {
    exists j :: 0 <= j < n && all[j].key == key
  }

  /** `resume` holds exactly the first `n` of the actions `all`, as far as the steps from `i` on can tell. */
  ghost predicate Holds(resume: Resume, all: seq<Action>, n: nat, steps: seq<Step>, i: nat) {
    && n <= |all|
    && (forall j :: 0 <= j < n ==> all[j].key in resume && resume[all[j].key] == all[j].output)
    && (forall s :: i <= s < |steps| && steps[s].key in resume ==> InFirst(steps[s].key, all, n))
  }

  /** A run only ever adds the outputs of the actions it takes. */
  ghost predicate Grows(completed: Resume, run: Run) {
    && (forall k :: k in completed ==> k in run.completed && run.completed[k] == completed[k])
    && (forall k :: k in run.completed && k !in completed ==> InFirst(k, run.actions, |run.actions|))
  }

  lemma GrowsPast(completed: Resume, p: Progress, rest: Run)
    requires Grows(p.completed, rest)
    requires p.completed == completed
          || (|p.actions| == 1 && p.actions[0].key !in completed &&
              p.completed == completed[p.actions[0].key := p.actions[0].output])
    ensures Grows(completed, Prepend(p, rest))
  {
    var all := p.actions + rest.actions;
    forall k | k in rest.completed && k !in completed
      ensures InFirst(k, all, |all|)
    {
      if k in p.completed {
        assert all[0].key == k;
      } else {
        var j :| 0 <= j < |rest.actions| && rest.actions[j].key == k;
        assert all[|p.actions| + j].key == k;
      }
    }
  }

  lemma {:induction false} CompletedGrows(steps: seq<Step>, world: nat -> Turn, i: nat, ctx: Context, completed: Resume,
                                          saved: Resume)
    requires i <= |steps|
    ensures Grows(completed, RunFrom(steps, world, i, ctx, completed, saved))
    decreases |steps| - i
  {
    if i < |steps| {
      var p := TakeTurn(steps[i], i == |steps| - 1, world(i), ctx, completed, saved);
      if p.Ok? {
        var next := After(ctx, steps[i].key, p.value.entry);
        CompletedGrows(steps, world, i + 1, next, p.value.completed, p.value.saved);
        GrowsPast(completed, p.value, RunFrom(steps, world, i + 1, next, p.value.completed, p.value.saved));
      }
    }
  }

  ghost predicate Within(saved: Resume, completed: Resume) {
    forall k :: k in saved ==> k in completed && completed[k] == saved[k]
  }

  /** What is on the job stays there and was completed. */
  lemma {:induction false} SavedIsWithin(steps: seq<Step>, world: nat -> Turn, i: nat, ctx: Context, completed: Resume,
                                         saved: Resume)
    requires i <= |steps| && Within(saved, completed)
    ensures var run := RunFrom(steps, world, i, ctx, completed, saved);
            Within(saved, run.saved) && Within(run.saved, run.completed)
    decreases |steps| - i
  {
    if i < |steps| {
      var p := TakeTurn(steps[i], i == |steps| - 1, world(i), ctx, completed, saved);
      if p.Ok? {
        SavedIsWithin(steps, world, i + 1, After(ctx, steps[i].key, p.value.entry), p.value.completed, p.value.saved);
      }
    }
  }

  /** The last step that acts and has to be saved, which the final step of the workflow need not be. */
  function LastToSave(steps: seq<Step>, world: nat -> Turn, i: nat, ctx: Context, completed: Resume): Option<nat>
    requires i <= |steps|
    decreases |steps| - i
  {
    if i == |steps| then None
    else
      match TakeTurn(steps[i], i == |steps| - 1, world(i), ctx, completed, completed)
      case Err(_) => None
      case Ok(p) =>
        var later := LastToSave(steps, world, i + 1, After(ctx, steps[i].key, p.entry), p.completed);
        if later.None? && p.actions != [] && i < |steps| - 1 then Some(i) else later
  }

  ghost predicate LastSaveLanded(steps: seq<Step>, world: nat -> Turn, ctx: Context, completed: Resume) {
    var last := LastToSave(steps, world, 0, ctx, completed);
    last.Some? ==> world(last.value).saved
  }

  /** What is on the job changes nothing but what is on the job. */
  lemma TurnsAlike(step: Step, last: bool, turn: Turn, ctx: Context, completed: Resume, saved: Resume)
    requires Within(saved, completed)
    ensures var p, q := TakeTurn(step, last, turn, ctx, completed, saved),
                        TakeTurn(step, last, turn, ctx, completed, completed);
            && p.Ok? == q.Ok?
            && (p.Ok? ==>
                  && p.value.entry == q.value.entry && p.value.completed == q.value.completed &&
                    p.value.actions == q.value.actions
                  && Within(p.value.saved, p.value.completed)
                  && (p.value.saved == p.value.completed <==>
                      if p.value.actions != [] && !last then turn.saved else saved == completed))
  {
    hide TryStep;
    var p := TakeTurn(step, last, turn, ctx, completed, saved);
    assert p.Ok? && p.value.actions != [] && !last ==> step.key in p.value.completed && step.key !in saved;
  }

  /**
   * Everything a run finished is on the job if and only if its last save landed, or it had nothing to save and nothing
   * to make up for.
   */
  lemma {:induction false} SavedIffLastSaveLanded(steps: seq<Step>, world: nat -> Turn, i: nat, ctx: Context,
                                                  completed: Resume, saved: Resume)
    requires i <= |steps| && Within(saved, completed)
    ensures var run, last := RunFrom(steps, world, i, ctx, completed, saved),
                             LastToSave(steps, world, i, ctx, completed);
            run.saved == run.completed <==> if last.Some? then world(last.value).saved else saved == completed
    decreases |steps| - i
  {
    if i < |steps| {
      var p := TakeTurn(steps[i], i == |steps| - 1, world(i), ctx, completed, saved);
      TurnsAlike(steps[i], i == |steps| - 1, world(i), ctx, completed, saved);
      hide TakeTurn, Within;
      if p.Ok? {
        var next := After(ctx, steps[i].key, p.value.entry);
        SavedIffLastSaveLanded(steps, world, i + 1, next, p.value.completed, p.value.saved);
      }
    }
  }

  /** Dropping, or prepending, the action of step `i`. */
  lemma HoldsShift(resume: Resume, first: Action, rest: seq<Action>, n: nat, steps: seq<Step>, i: nat)
    requires i < |steps| && DistinctKeys(steps) && first.key == steps[i].key
    requires OncePerKey([first] + rest)
    requires first.key in resume && resume[first.key] == first.output
    ensures 1 <= n && Holds(resume, [first] + rest, n, steps, i) ==> Holds(resume, rest, n - 1, steps, i + 1)
    ensures Holds(resume, rest, n, steps, i + 1) ==> Holds(resume, [first] + rest, n + 1, steps, i)
  {
    var all := [first] + rest;
    if 1 <= n && Holds(resume, all, n, steps, i) {
      forall j | 0 <= j < n - 1
        ensures rest[j].key in resume && resume[rest[j].key] == rest[j].output
      {
        assert all[j + 1] == rest[j];
      }
      forall s | i + 1 <= s < |steps| && steps[s].key in resume
        ensures InFirst(steps[s].key, rest, n - 1)
      {
        var j :| 0 <= j < n && all[j].key == steps[s].key;
        assert j != 0 && rest[j - 1] == all[j];
      }
    }
    if Holds(resume, rest, n, steps, i + 1) {
      forall s | i <= s < |steps| && steps[s].key in resume
        ensures InFirst(steps[s].key, all, n + 1)
      {
        if s == i {
          assert all[0].key == steps[s].key;
        } else {
          var j :| 0 <= j < n && rest[j].key == steps[s].key;
          assert all[j + 1].key == steps[s].key;
        }
      }
    }
  }

  /** A step behaves in an attempt as in the uninterrupted run, as long as the world lets it. */
  lemma SameStep(step: Step, ctx: Context, a: nat, turn: Turn, output: Json)
    requires AttemptBlind(step)
    ensures var here, ideal := TryStep(step, ctx.(attempt := a), turn),
                               TryStep(step, ctx, Turn(None, Ok(output), true));
            && (here.Skip? ==> ideal.Skip?)
            && (here.Done? ==> ideal == Done(here.config, output))
  {
  }

  /** Started with the first `n` ideal actions saved, a run takes the next ones, and all of them if it completes. */
  ghost predicate Continues(run: Run, ideal: Ideal, n: nat, steps: seq<Step>, i: nat) {
    Resumes(run.actions, run.completed, run.outcome.Completed?, ideal, n, steps, i)
  }

  ghost predicate Resumes(actions: seq<Action>, completed: Resume, done: bool, ideal: Ideal, n: nat, steps: seq<Step>,
                          i: nat) {
    && n + |actions| <= |ideal.actions|
    && actions == ideal.actions[n..n + |actions|]
    && if done then n + |actions| == |ideal.actions| && ideal.finished
       else Holds(completed, ideal.actions, n + |actions|, steps, i)
  }

  lemma {:induction false} ResumeContinues(
      steps: seq<Step>, world: nat -> Turn, i: nat, ctx: Context, a: nat, completed: Resume, saved: Resume,
      outputs: string -> Json, n: nat)
    requires i <= |steps| && DistinctKeys(steps) && Blind(steps)
    requires Holds(completed, IdealFrom(steps, i, ctx, outputs).actions, n, steps, i)
    requires Agree(RunFrom(steps, world, i, ctx.(attempt := a), completed, saved).actions, outputs)
    ensures Continues(RunFrom(steps, world, i, ctx.(attempt := a), completed, saved), IdealFrom(steps, i, ctx, outputs),
                      n, steps, i)
    decreases |steps| - i, 1
  {
    if i < |steps| {
      if steps[i].key in completed {
        ResumeSaved(steps, world, i, ctx, a, completed, saved, outputs, n);
      } else {
        SameStep(steps[i], ctx, a, world(i), outputs(steps[i].key));
        match TryStep(steps[i], ctx.(attempt := a), world(i))
        case Fail(_) =>
        case Skip => ResumeSkipped(steps, world, i, ctx, a, completed, saved, outputs, n);
        case Done(_, _) => ResumeActing(steps, world, i, ctx, a, completed, saved, outputs, n);
      }
    }
  }

  /** From what holds after a step that neither run acts in to what holds before it. */
  lemma ResumesPast(actions: seq<Action>, completed: Resume, done: bool, ideal: Ideal, n: nat, steps: seq<Step>, i: nat)
    requires i < |steps|
    requires Resumes(actions, completed, done, ideal, n, steps, i + 1)
    requires steps[i].key in completed ==> InFirst(steps[i].key, actions, |actions|)
    ensures Resumes(actions, completed, done, ideal, n, steps, i)
  {
  }

  /** From what holds after a step the uninterrupted run acts in to what holds before it. */
  lemma ResumesFrom(actions: seq<Action>, completed: Resume, done: bool, first: Action, acted: bool, rest: Ideal,
                    n: nat, steps: seq<Step>, i: nat)
    requires i < |steps| && DistinctKeys(steps) && first.key == steps[i].key
    requires OncePerKey([first] + rest.actions)
    requires Resumes(actions, completed, done, rest, n, steps, i + 1)
    requires acted ==> n == 0
    requires !done ==> first.key in completed && completed[first.key] == first.output
    ensures Resumes(if acted then [first] + actions else actions, completed, done,
                    Ideal([first] + rest.actions, rest.finished), if acted then n else n + 1, steps, i)
  {
    if !done {
      HoldsShift(completed, first, rest.actions, n + |actions|, steps, i);
    }
    assert ([first] + rest.actions)[n + 1..n + 1 + |actions|] == rest.actions[n..n + |actions|];
  }

  lemma RunUnfolds(steps: seq<Step>, world: nat -> Turn, i: nat, ctx: Context, a: nat, completed: Resume, saved: Resume)
    returns (p: Progress, run: Run)
    requires i < |steps| && TakeTurn(steps[i], i == |steps| - 1, world(i), ctx.(attempt := a), completed, saved).Ok?
    ensures Ok(p) == TakeTurn(steps[i], i == |steps| - 1, world(i), ctx.(attempt := a), completed, saved)
    ensures run == RunFrom(steps, world, i + 1, After(ctx, steps[i].key, p.entry).(attempt := a), p.completed, p.saved)
    ensures RunFrom(steps, world, i, ctx.(attempt := a), completed, saved) == Prepend(p, run)
    ensures Grows(p.completed, run)
  {
    p := TakeTurn(steps[i], i == |steps| - 1, world(i), ctx.(attempt := a), completed, saved).value;
    run := RunFrom(steps, world, i + 1, After(ctx, steps[i].key, p.entry).(attempt := a), p.completed, p.saved);
    CompletedGrows(steps, world, i + 1, After(ctx, steps[i].key, p.entry).(attempt := a), p.completed, p.saved);
  }

  /** Passing a saved step takes no action. */
  lemma SavedPasses(steps: seq<Step>, world: nat -> Turn, i: nat, ctx: Context, a: nat, completed: Resume,
                    saved: Resume)
    requires i < |steps| && steps[i].key in completed
    ensures var key := steps[i].key;
            var whole := RunFrom(steps, world, i, ctx.(attempt := a), completed, saved);
            var run := RunFrom(steps, world, i + 1, After(ctx, key, Entry(completed[key], false)).(attempt := a),
                               completed, saved);
            && whole.actions == run.actions && whole.completed == run.completed
            && whole.outcome.Completed? == run.outcome.Completed?
            && key in run.completed && run.completed[key] == completed[key]
  {
    var p, run := RunUnfolds(steps, world, i, ctx, a, completed, saved);
    assert p.actions + run.actions == run.actions;
  }

  lemma AgreeTail(first: seq<Action>, rest: seq<Action>, outputs: string -> Json)
    requires Agree(first + rest, outputs)
    ensures Agree(first, outputs) && Agree(rest, outputs)
  {
    assert forall j :: 0 <= j < |rest| ==> (first + rest)[|first| + j] == rest[j];
    assert forall j :: 0 <= j < |first| ==> (first + rest)[j] == first[j];
  }

  /** A saved step is the first action left of the uninterrupted run, with the saved output. */
  lemma SavedActsFirst(steps: seq<Step>, i: nat, ctx: Context, completed: Resume, outputs: string -> Json, n: nat)
    requires i < |steps| && DistinctKeys(steps) && steps[i].key in completed
    requires Holds(completed, IdealFrom(steps, i, ctx, outputs).actions, n, steps, i)
    ensures var key, all := steps[i].key, IdealFrom(steps, i, ctx, outputs);
            var rest := IdealFrom(steps, i + 1, After(ctx, key, Entry(completed[key], false)), outputs);
            && n >= 1 && all.actions != [] && all.actions[0].key == key && all.actions[0].output == completed[key]
            && all == Ideal([all.actions[0]] + rest.actions, rest.finished)
  {
    var key, all := steps[i].key, IdealFrom(steps, i, ctx, outputs).actions;
    var j :| 0 <= j < n && all[j].key == key;
    match TryStep(steps[i], ctx, Turn(None, Ok(outputs(key)), true))
    case Fail(_) =>
    case Skip =>
      IdealKeys(steps, i + 1, After(ctx, key, Entry(Null, true)), outputs);
    case Done(_, _) =>
      IdealKeys(steps, i + 1, After(ctx, key, Entry(outputs(key), false)), outputs);
      assert j == 0;
  }

  /** The next step is saved: the uninterrupted run acts there, with the saved output. */
  lemma {:induction false} ResumeSaved(
      steps: seq<Step>, world: nat -> Turn, i: nat, ctx: Context, a: nat, completed: Resume, saved: Resume,
      outputs: string -> Json, n: nat)
    requires i < |steps| && DistinctKeys(steps) && Blind(steps) && steps[i].key in completed
    requires Holds(completed, IdealFrom(steps, i, ctx, outputs).actions, n, steps, i)
    requires Agree(RunFrom(steps, world, i, ctx.(attempt := a), completed, saved).actions, outputs)
    ensures Continues(RunFrom(steps, world, i, ctx.(attempt := a), completed, saved), IdealFrom(steps, i, ctx, outputs),
                      n, steps, i)
    decreases |steps| - i, 0
  {
    var key := steps[i].key;
    var ideal := IdealFrom(steps, i, ctx, outputs);
    var next := After(ctx, key, Entry(completed[key], false));
    var rest := IdealFrom(steps, i + 1, next, outputs);
    var run := RunFrom(steps, world, i + 1, next.(attempt := a), completed, saved);
    SavedPasses(steps, world, i, ctx, a, completed, saved);
    SavedActsFirst(steps, i, ctx, completed, outputs, n);
    IdealKeys(steps, i, ctx, outputs);
    hide RunFrom, IdealFrom, TryStep, TakeTurn, Resumes, OncePerKey, Holds, Agree;
    var first := ideal.actions[0];
    HoldsShift(completed, first, rest.actions, n, steps, i);
    ResumeContinues(steps, world, i + 1, next, a, completed, saved, outputs, n - 1);
    ResumesFrom(run.actions, run.completed, run.outcome.Completed?, first, false, rest, n - 1, steps, i);
  }

  /** The next step is skipped in both runs. */
  lemma {:induction false} ResumeSkipped(
      steps: seq<Step>, world: nat -> Turn, i: nat, ctx: Context, a: nat, completed: Resume, saved: Resume,
      outputs: string -> Json, n: nat)
    requires i < |steps| && DistinctKeys(steps) && Blind(steps) && steps[i].key !in completed
    requires TryStep(steps[i], ctx.(attempt := a), world(i)).Skip?
    requires TryStep(steps[i], ctx, Turn(None, Ok(outputs(steps[i].key)), true)).Skip?
    requires Holds(completed, IdealFrom(steps, i, ctx, outputs).actions, n, steps, i)
    requires Agree(RunFrom(steps, world, i, ctx.(attempt := a), completed, saved).actions, outputs)
    ensures Continues(RunFrom(steps, world, i, ctx.(attempt := a), completed, saved), IdealFrom(steps, i, ctx, outputs),
                      n, steps, i)
    decreases |steps| - i, 0
  {
    var key := steps[i].key;
    var p, run := RunUnfolds(steps, world, i, ctx, a, completed, saved);
    var next := After(ctx, key, Entry(Null, true));
    var ideal, rest := IdealFrom(steps, i, ctx, outputs), IdealFrom(steps, i + 1, next, outputs);
    IdealKeys(steps, i, ctx, outputs);
    hide RunFrom, IdealFrom, TryStep, Resumes, OncePerKey;
    AgreeTail(p.actions, run.actions, outputs);
    ResumeContinues(steps, world, i + 1, next, a, completed, saved, outputs, n);
    assert p.actions + run.actions == run.actions;
    ResumesPast(run.actions, run.completed, run.outcome.Completed?, ideal, n, steps, i);
  }

  /** The next step acts: nothing further is saved, and the action is the first one left of the uninterrupted run. */
  lemma {:induction false} ResumeActing(
      steps: seq<Step>, world: nat -> Turn, i: nat, ctx: Context, a: nat, completed: Resume, saved: Resume,
      outputs: string -> Json, n: nat)
    requires i < |steps| && DistinctKeys(steps) && Blind(steps) && steps[i].key !in completed
    requires TryStep(steps[i], ctx.(attempt := a), world(i)).Done?
    requires var config := TryStep(steps[i], ctx.(attempt := a), world(i)).config;
             TryStep(steps[i], ctx, Turn(None, Ok(outputs(steps[i].key)), true)) == Done(config, outputs(steps[i].key))
    requires Holds(completed, IdealFrom(steps, i, ctx, outputs).actions, n, steps, i)
    requires Agree(RunFrom(steps, world, i, ctx.(attempt := a), completed, saved).actions, outputs)
    ensures Continues(RunFrom(steps, world, i, ctx.(attempt := a), completed, saved), IdealFrom(steps, i, ctx, outputs),
                      n, steps, i)
    decreases |steps| - i, 0
  {
    var key := steps[i].key;
    var p, run := RunUnfolds(steps, world, i, ctx, a, completed, saved);
    AgreeTail(p.actions, run.actions, outputs);
    var next := After(ctx, key, Entry(outputs(key), false));
    var ideal, rest := IdealFrom(steps, i, ctx, outputs), IdealFrom(steps, i + 1, next, outputs);
    IdealKeys(steps, i, ctx, outputs);
    assert p.actions[0].output == outputs(key);
    assert ideal.actions == p.actions + rest.actions && p.entry == Entry(outputs(key), false);
    var last := i == |steps| - 1;
    assert last ==> run == Run(Completed([]), p.completed, p.saved, []);
    assert p.completed == if last then completed else completed[key := outputs(key)];
    assert n == 0 by { assert ideal.actions[0].key == key; }
    hide RunFrom, IdealFrom, TryStep, TakeTurn, Resumes, OncePerKey;
    assert Holds(p.completed, rest.actions, 0, steps, i + 1) by {
      assert forall s :: i + 1 <= s < |steps| && steps[s].key in completed ==> InFirst(steps[s].key, ideal.actions, 0);
    }
    ResumeContinues(steps, world, i + 1, next, a, p.completed, p.saved, outputs, 0);
    ResumesFrom(run.actions, run.completed, run.outcome.Completed?, p.actions[0], true, rest, 0, steps, i);
  }

  /** A world in which nothing is aborted, every save lands, and each action gives its output. */
  function Calm(steps: seq<Step>, outputs: string -> Json): nat -> Turn {
    (i: nat) => Turn(None, Ok(if i < |steps| then outputs(steps[i].key) else Null), true)
  }

  /** The engine itself, started fresh in a calm world, is that uninterrupted run. */
  lemma {:induction false} CalmRunIsIdeal(steps: seq<Step>, i: nat, ctx: Context, completed: Resume, saved: Resume,
                                          outputs: string -> Json)
    requires i <= |steps| && DistinctKeys(steps)
    requires forall s :: i <= s < |steps| ==> steps[s].key !in completed
    ensures var run := RunFrom(steps, Calm(steps, outputs), i, ctx, completed, saved);
            IdealFrom(steps, i, ctx, outputs) == Ideal(run.actions, run.outcome.Completed?)
    decreases |steps| - i
  {
    if i < |steps| {
      var p := TakeTurn(steps[i], i == |steps| - 1, Calm(steps, outputs)(i), ctx, completed, saved);
      if p.Ok? {
        var next := After(ctx, steps[i].key, p.value.entry);
        var run := RunFrom(steps, Calm(steps, outputs), i + 1, next, p.value.completed, p.value.saved);
        assert RunFrom(steps, Calm(steps, outputs), i, ctx, completed, saved) == Prepend(p.value, run);
        assert IdealFrom(steps, i, ctx, outputs)
            == (var rest := IdealFrom(steps, i + 1, next, outputs);
                Ideal(p.value.actions + rest.actions, rest.finished)) by {
          assert p.value.actions == [] ==>
            p.value.actions + IdealFrom(steps, i + 1, next, outputs).actions ==
            IdealFrom(steps, i + 1, next, outputs).actions;
        }
        hide RunFrom, IdealFrom, TryStep;
        CalmRunIsIdeal(steps, i + 1, next, p.value.completed, p.value.saved, outputs);
      }
    }
  }
}
