/** Whole lives of a job: every job stops with exactly one ending, and resuming refines the uninterrupted run. */
module JobRuns {
  import opened Collections
  import opened Numbers
  import opened Retry
  import opened WorkflowEngine
  import opened StepResume
  import opened JobLifecycle

  // ---------------------------------------------------------------------------
  // Every job stops
  // ---------------------------------------------------------------------------

  /** One shared clock: a delivery starts when the job is due, ends later, and carries its lock token. */
  ghost predicate Admissible(cfg: Config, visit: Visit, due: real) {
    && due <= visit.startedAt <= visit.finishedAt
    && 0.0 <= visit.jitter <= 1.0 && 0.0 <= visit.backoff <= 1.0
    && visit.token
  }

  /** What a job has been through: deliveries that counted, postponements, and everything recorded. */
  datatype Tally = Tally(phase: Phase, counted: nat, postponed: nat, statuses: seq<ExecutionStatus>, deadLetters: nat,
                         successes: nat)

  /** Deliveries stop once the job has left the queue. */
  function Work(cfg: Config, phase: Phase, visits: seq<Visit>): Tally
    decreases |visits|
  {
    if visits == [] || !phase.Waiting? then Tally(phase, 0, 0, [], 0, 0)
    else
      var r := Processed(cfg, phase.job, visits[0]);
      var rest := Work(cfg, Settled(cfg, phase.job, visits[0]), visits[1..]);
      Tally(rest.phase,
            rest.counted + (if r.verdict.Delayed? then 0 else 1),
            rest.postponed + (if r.verdict.Delayed? then 1 else 0),
            r.statuses + rest.statuses,
            |r.deadLetters| + rest.deadLetters,
            (if r.verdict.Returned? then 1 else 0) + rest.successes)
  }

  ghost predicate Delivered(cfg: Config, phase: Phase, visits: seq<Visit>)
    decreases |visits|
  {
    visits == [] || !phase.Waiting? ||
    (Admissible(cfg, visits[0], phase.due) && Delivered(cfg, Settled(cfg, phase.job, visits[0]), visits[1..]))
  }

  /** Ten-millisecond postponements that still fit between `due` and the deferral limit. */
  function Budget(cfg: Config, job: Job, due: real): nat {
    if job.data.None? then 0
    else
      var left := cfg.maxDeferMs - (due - job.data.value.receivedAt);
      if left <= 0.0 then 0 else -((-left / 10.0).Floor)
  }

  /** (RUNNING RETRYING)*, then RUNNING and the ending if there is one. */
  ghost predicate WellShaped(word: seq<ExecutionStatus>, ending: Option<ExecutionStatus>) {
    if word == [] then ending.None?
    else
      && |word| >= 2 && word[0] == RUNNING
      && (if word[1] == RETRYING then WellShaped(word[2..], ending)
          else |word| == 2 && ending == Some(word[1]) && word[1] in {SUCCEEDED, DEAD_LETTERED})
  }

  /**
   * A postponement lasts the base wait, of ten milliseconds or more, and at most that wait again, held between 100 and
   * 1,000 milliseconds.
   */
  lemma PostponementSpread(retryAfterMs: Option<real>, random: real)
    requires 0.0 <= random <= 1.0
    ensures var base := MaxReal(if retryAfterMs.Some? then retryAfterMs.value else 1000.0, 10.0);
            var spread := MinReal(MaxReal(base, 100.0), 1000.0);
            base - 0.5 < RateLimitDelay(retryAfterMs, random) as real <= base + spread + 0.5
    ensures RateLimitDelay(retryAfterMs, random) >= 10
  {
    var base := MaxReal(if retryAfterMs.Some? then retryAfterMs.value else 1000.0, 10.0);
    Share(random, MinReal(MaxReal(base, 100.0), 1000.0));
    hide Drawn;
  }

  lemma BudgetShrinks(cfg: Config, job: Job, due: real, later: real)
    requires job.data.Some? && due <= later
    ensures Budget(cfg, job, later) <= Budget(cfg, job, due)
    ensures (later >= due + 10.0 && later - 10.0 - job.data.value.receivedAt < cfg.maxDeferMs) ==>
              Budget(cfg, job, later) + 1 <= Budget(cfg, job, due)
  {
  }

  ghost predicate ValidPolicy(cfg: Config) {
    cfg.policy.baseDelayMs >= 0.0 && cfg.policy.maxDelayMs >= 0.0
  }

  /** A waiting job always has attempts left. */
  ghost predicate Live(phase: Phase) {
    phase.Waiting? ==> phase.job.attemptsMade < MaxAttempts(phase.job)
  }

  /**
   * One delivery: either the job leaves the queue, or it used up an attempt or ten milliseconds of its deferral budget.
   */
  lemma DeliveryProgress(cfg: Config, job: Job, due: real, visit: Visit)
    requires ValidPolicy(cfg) && job.attemptsMade < MaxAttempts(job) && Admissible(cfg, visit, due)
    ensures var next, r := Settled(cfg, job, visit), Processed(cfg, job, visit);
            && Live(next)
            && (next.Waiting? ==>
                  && job.data.Some? && next.job.data.Some? && MaxAttempts(next.job) == MaxAttempts(job)
                  && r.statuses == [RUNNING, RETRYING] && r.deadLetters == [] && !r.verdict.Returned?
                  && (if r.verdict.Delayed? then
                        next.job.attemptsMade == job.attemptsMade &&
                          Budget(cfg, next.job, next.due) + 1 <= Budget(cfg, job, due)
                      else
                        next.job.attemptsMade == job.attemptsMade + 1 &&
                          Budget(cfg, next.job, next.due) <= Budget(cfg, job, due)))
            && (!next.Waiting? ==>
                  && !r.verdict.Delayed?
                  && (next.Finished? <==> r.verdict.Returned?)
                  && |r.deadLetters| == (if next.Finished? then 0 else 1)
                  && r.statuses == (if job.data.None? then []
                                    else [RUNNING, if next.Finished? then SUCCEEDED else DEAD_LETTERED]))
  {
    hide RunFrom, RetryDelayFor, RateLimitDelay;
    var r, next := Processed(cfg, job, visit), Settled(cfg, job, visit);
    if next.Waiting? {
      assert next.job.data.Some? && next.job.data.value.receivedAt == job.data.value.receivedAt;
      if r.verdict.Delayed? {
        var error := if Ran(job.data.value, visit, job.attemptsMade + 1).Err?
                     then Ran(job.data.value, visit, job.attemptsMade + 1).error
                     else Ran(job.data.value, visit, job.attemptsMade + 1).value.outcome.error;
        PostponementSpread(error.retryAfterMs, visit.jitter);
        BudgetShrinks(cfg, job, due, next.due);
      } else {
        DelayIsNonNegative(r.verdict.error.retryAfterMs, job.attemptsMade + 1, cfg.policy, visit.backoff);
        BudgetShrinks(cfg, job, due, next.due);
      }
    }
  }

  /** A job is dead-lettered exactly when the queue, deciding on its own, stops retrying it. */
  lemma DeadLetteredIffStopped(cfg: Config, job: Job, due: real, visit: Visit)
    requires ValidPolicy(cfg) && job.attemptsMade < MaxAttempts(job) && Admissible(cfg, visit, due)
    ensures Settled(cfg, job, visit).Stopped? <==> Processed(cfg, job, visit).deadLetters != []
  {
    DeliveryProgress(cfg, job, due, visit);
  }

  /** How often the job can still be delivered: attempts left plus postponements left. */
  function Measure(cfg: Config, phase: Phase): nat
    requires Live(phase)
  {
    if phase.Waiting? then MaxAttempts(phase.job) - phase.job.attemptsMade + Budget(cfg, phase.job, phase.due) else 0
  }

  function EndingOf(phase: Phase): Option<ExecutionStatus> {
    if phase.Waiting? then None else if phase.Finished? then Some(SUCCEEDED) else Some(DEAD_LETTERED)
  }

  lemma {:induction false} WorkIsBounded(cfg: Config, phase: Phase, visits: seq<Visit>)
    requires ValidPolicy(cfg) && Live(phase) && Delivered(cfg, phase, visits)
    ensures var t := Work(cfg, phase, visits);
            && Live(t.phase)
            && (phase.Waiting? ==> t.counted <= MaxAttempts(phase.job) - phase.job.attemptsMade)
            && (phase.Waiting? ==> t.postponed <= Budget(cfg, phase.job, phase.due))
            && (|visits| >= Measure(cfg, phase) ==> !t.phase.Waiting?)
            && (phase.Waiting? ==>
                  && t.successes + t.deadLetters == (if t.phase.Waiting? then 0 else 1)
                  && t.successes == (if t.phase.Finished? then 1 else 0)
                  && (phase.job.data.Some? ==>
                        WellShaped(t.statuses, EndingOf(t.phase)))
                  && (phase.job.data.None? ==> t.statuses == []))
    decreases |visits|
  {
    if visits != [] && phase.Waiting? {
      DeliveryProgress(cfg, phase.job, phase.due, visits[0]);
      var r, next := Processed(cfg, phase.job, visits[0]), Settled(cfg, phase.job, visits[0]);
      WorkIsBounded(cfg, next, visits[1..]);
      var rest := Work(cfg, next, visits[1..]);
      if next.Waiting? {
        assert (r.statuses + rest.statuses)[2..] == rest.statuses;
      } else {
        assert r.statuses + rest.statuses == r.statuses;
      }
    }
  }

  lemma OneDeliveryTells(cfg: Config, job: Job, visit: Visit)
    requires Settled(cfg, job, visit).Waiting?
    ensures
      var next, r := Settled(cfg, job, visit).job, Processed(cfg, job, visit);
      && job.data.Some? && next.data.Some?
      && next.attemptsMade == job.attemptsMade + (if r.verdict.Delayed? then 0 else 1)
      && next.data.value.deferrals == job.data.value.deferrals + (if r.verdict.Delayed? then 1 else 0)
  {
    hide RunFrom, RetryDelayFor, RateLimitDelay;
  }

  /**
   * A job that is still queued tells how often it was delivered: its attempts and its deferrals count up to the visits.
   */
  lemma {:induction false} CountersTell(cfg: Config, phase: Phase, visits: seq<Visit>)
    requires phase.Waiting? && Work(cfg, phase, visits).phase.Waiting? && phase.job.data.Some?
    ensures
      var t := Work(cfg, phase, visits);
      var job := t.phase.job;
      && job.data.Some? && t.counted + t.postponed == |visits|
      && job.attemptsMade == phase.job.attemptsMade + t.counted
      && job.data.value.deferrals == phase.job.data.value.deferrals + t.postponed
    decreases |visits|
  {
    if visits != [] {
      var next := Settled(cfg, phase.job, visits[0]);
      assert next.Waiting?;
      OneDeliveryTells(cfg, phase.job, visits[0]);
      hide Settled, Processed;
      CountersTell(cfg, next, visits[1..]);
    }
  }

  /**
   * A fresh job is delivered at most MaxAttempts counted times and postponed at most ceil(maxDeferMs / 10) times.
   * After that many deliveries it has left the queue, with either one success or one dead letter.
   */
  lemma EveryJobStops(cfg: Config, job: Job, due: real, visits: seq<Visit>)
    requires ValidPolicy(cfg) && cfg.maxDeferMs >= 0.0
    requires job.attemptsMade == 0 && (job.data.Some? ==> job.data.value.receivedAt <= due)
    requires Delivered(cfg, Waiting(job, due), visits)
    ensures var t, limit := Work(cfg, Waiting(job, due), visits), -((-cfg.maxDeferMs / 10.0).Floor);
            && t.counted <= MaxAttempts(job)
            && t.postponed <= limit
            && (|visits| >= MaxAttempts(job) + limit ==> !t.phase.Waiting?)
            && (!t.phase.Waiting? ==>
                  if t.phase.Finished? then t.successes == 1 && t.deadLetters == 0
                  else t.successes == 0 && t.deadLetters == 1)
            && (job.data.Some? ==>
                  WellShaped(t.statuses, EndingOf(t.phase)))
  {
    WorkIsBounded(cfg, Waiting(job, due), visits);
  }

  // ---------------------------------------------------------------------------
  // Resuming refines the uninterrupted run
  // ---------------------------------------------------------------------------

  /** An execution across jobs: a dead-lettered payload can be requeued as a new job. */
  datatype Life = InQueue(job: Job) | Ended | Dead(payload: Option<JobData>)

  datatype Event = Deliver(visit: Visit) | Requeue(row: string, attempts: Option<int>)

  function Lived(cfg: Config, life: Life, e: Event): (Life, seq<Action>) {
    match (life, e)
    case (InQueue(job), Deliver(visit)) =>
      var r := Processed(cfg, job, visit);
      var next := match Settled(cfg, job, visit)
                  case Waiting(job', _) => InQueue(job')
                  case Finished => Ended
                  case Stopped => if r.deadLetters == [] then Dead(None) else Dead(r.deadLetters[0].payload);
      (next, r.actions)
    case (Dead(payload), Requeue(row, attempts)) =>
      if payload.None? then (life, [])
      else (InQueue(Job(Some(payload.value.(requeuedFrom := Some(row))), 0, attempts)), [])
    case _ => (life, [])
  }

  function Actions(cfg: Config, life: Life, events: seq<Event>): seq<Action>
    decreases |events|
  {
    if events == [] then []
    else Lived(cfg, life, events[0]).1 + Actions(cfg, Lived(cfg, life, events[0]).0, events[1..])
  }

  function Final(cfg: Config, life: Life, events: seq<Event>): Life
    decreases |events|
  {
    if events == [] then life else Final(cfg, Lived(cfg, life, events[0]).0, events[1..])
  }

  /** Every delivery finds the same workflow, or none. */
  ghost predicate SameWorkflow(events: seq<Event>, steps: seq<Step>, info: Json) {
    forall i :: 0 <= i < |events| && events[i].Deliver? ==>
      var visit := events[i].visit;
      visit.info == info && (visit.workflow.Ok? && visit.workflow.value.Some? ==> visit.workflow.value.value == steps)
  }

  /** Before every plain retry, the last save landed. */
  ghost predicate SavesLand(cfg: Config, life: Life, events: seq<Event>)
    decreases |events|
  {
    events == [] ||
    (&& (life.InQueue? && life.job.data.Some? && events[0].Deliver? ==> SaveLands(cfg, life.job, events[0].visit))
     && SavesLand(cfg, Lived(cfg, life, events[0]).0, events[1..]))
  }

  /** The delivery ran the workflow and failed, and the queue will simply try again. */
  ghost predicate PlainRetry(cfg: Config, job: Job, visit: Visit)
    requires job.data.Some?
  {
    visit.workflow.Ok? && visit.workflow.value.Some? && Settled(cfg, job, visit).Waiting? &&
      Processed(cfg, job, visit).verdict.Thrown?
  }

  /** Before a plain retry, the last save landed. */
  ghost predicate SaveLands(cfg: Config, job: Job, visit: Visit)
    requires job.data.Some?
  {
    PlainRetry(cfg, job, visit) ==>
      LastSaveLanded(visit.workflow.value.value, visit.world,
                     ContextOf(job.data.value, visit.info, job.attemptsMade + 1), job.data.value.resume)
  }

  /** Then, and only then, the next attempt finds everything this one finished. */
  lemma SaveLandsIffSaved(cfg: Config, job: Job, visit: Visit)
    requires job.data.Some?
    ensures SaveLands(cfg, job, visit) <==>
            (PlainRetry(cfg, job, visit) ==>
               var run := Ran(job.data.value, visit, job.attemptsMade + 1).value;
               run.saved == run.completed)
  {
    hide Settled, Processed;
    if visit.workflow.Ok? && visit.workflow.value.Some? {
      var data := job.data.value;
      SavedIffLastSaveLanded(visit.workflow.value.value, visit.world, 0,
                             ContextOf(data, visit.info, job.attemptsMade + 1), data.resume, data.resume);
    }
  }

  ghost function DataOf(life: Life): Option<JobData> {
    match life
    case InQueue(job) => job.data
    case Ended => None
    case Dead(payload) => payload
  }

  /** The execution's resume state is exactly the first `n` actions of the uninterrupted run. */
  ghost predicate OnTrack(life: Life, steps: seq<Step>, base: Context, ideal: Ideal, n: nat) {
    && n <= |ideal.actions|
    && (life.Ended? ==> n == |ideal.actions| && ideal.finished)
    && (DataOf(life).Some? ==>
          var data := DataOf(life).value;
          ContextOf(data, base.workflow, 0) == base && Holds(data.resume, ideal.actions, n, steps, 0))
  }

  /** One event extends the actions along the uninterrupted run. */
  lemma LifeStep(cfg: Config, life: Life, e: Event, steps: seq<Step>, base: Context, outputs: string -> Json, n: nat)
    requires DistinctKeys(steps) && Blind(steps)
    requires OnTrack(life, steps, base, IdealFrom(steps, 0, base, outputs), n)
    requires SameWorkflow([e], steps, base.workflow) && SavesLand(cfg, life, [e])
    requires Agree(Lived(cfg, life, e).1, outputs)
    ensures var (next, actions) := Lived(cfg, life, e);
            && OnTrack(next, steps, base, IdealFrom(steps, 0, base, outputs), n + |actions|)
            && actions == IdealFrom(steps, 0, base, outputs).actions[n..n + |actions|]
  {
    hide RunFrom, IdealFrom, TryStep, DistinctKeys, Blind, Holds, LastSaveLanded, RateLimitDelay, RetryDelayFor;
    if life.InQueue? && e.Deliver? && life.job.data.Some? {
      var data, attempt := life.job.data.value, life.job.attemptsMade + 1;
      assert [e][0] == e;
      assert SaveLands(cfg, life.job, e.visit);
      SaveLandsIffSaved(cfg, life.job, e.visit);
      var ran := Ran(data, e.visit, attempt);
      assert ContextOf(data, e.visit.info, attempt) == base.(attempt := attempt);
      if ran.Ok? {
        ResumeContinues(steps, e.visit.world, 0, base, attempt, data.resume, data.resume, outputs, n);
      }
    }
  }

  lemma {:induction false} LifeFollows(cfg: Config, life: Life, events: seq<Event>, steps: seq<Step>, base: Context,
                                       outputs: string -> Json, n: nat)
    requires DistinctKeys(steps) && Blind(steps)
    requires OnTrack(life, steps, base, IdealFrom(steps, 0, base, outputs), n)
    requires SameWorkflow(events, steps, base.workflow) && SavesLand(cfg, life, events)
    requires Agree(Actions(cfg, life, events), outputs)
    ensures var actions, ideal := Actions(cfg, life, events), IdealFrom(steps, 0, base, outputs);
            && n + |actions| <= |ideal.actions| && actions == ideal.actions[n..n + |actions|]
            && OnTrack(Final(cfg, life, events), steps, base, ideal, n + |actions|)
    decreases |events|
  {
    hide *;
    if events == [] {
      NoEvents(cfg, life, steps, base, outputs, n);
      return;
    }
    var (next, now) := Lived(cfg, life, events[0]);
    FirstEvent(cfg, life, events, steps, base, outputs, n);
    LifeFollows(cfg, next, events[1..], steps, base, outputs, n + |now|);
    Glue(IdealFrom(steps, 0, base, outputs).actions, n, now, Actions(cfg, next, events[1..]));
  }

  lemma NoEvents(cfg: Config, life: Life, steps: seq<Step>, base: Context, outputs: string -> Json, n: nat)
    requires OnTrack(life, steps, base, IdealFrom(steps, 0, base, outputs), n)
    ensures Actions(cfg, life, []) == [] && Final(cfg, life, []) == life
    ensures n <= |IdealFrom(steps, 0, base, outputs).actions| && IdealFrom(steps, 0, base, outputs).actions[n..n] == []
  {
  }

  /** The first event of a life, and what holds of the rest. */
  lemma FirstEvent(cfg: Config, life: Life, events: seq<Event>, steps: seq<Step>, base: Context,
                   outputs: string -> Json, n: nat)
    requires events != [] && DistinctKeys(steps) && Blind(steps)
    requires OnTrack(life, steps, base, IdealFrom(steps, 0, base, outputs), n)
    requires SameWorkflow(events, steps, base.workflow) && SavesLand(cfg, life, events)
    requires Agree(Actions(cfg, life, events), outputs)
    ensures var (next, now) := Lived(cfg, life, events[0]);
            && OnTrack(next, steps, base, IdealFrom(steps, 0, base, outputs), n + |now|)
            && n + |now| <= |IdealFrom(steps, 0, base, outputs).actions|
            && now == IdealFrom(steps, 0, base, outputs).actions[n..n + |now|]
            && SameWorkflow(events[1..], steps, base.workflow) && SavesLand(cfg, next, events[1..])
            && Agree(Actions(cfg, next, events[1..]), outputs)
            && Actions(cfg, life, events) == now + Actions(cfg, next, events[1..])
            && Final(cfg, life, events) == Final(cfg, next, events[1..])
  {
    hide Lived, IdealFrom, DistinctKeys, Blind, Holds, SaveLands;
    var e := events[0];
    var (next, now) := Lived(cfg, life, e);
    AgreeTail(now, Actions(cfg, next, events[1..]), outputs);
    assert SavesLand(cfg, life, [e]) by { assert [e][1..] == []; }
    assert SameWorkflow([e], steps, base.workflow);
    assert forall i :: 0 <= i < |events[1..]| ==> events[1..][i] == events[i + 1];
    LifeStep(cfg, life, e, steps, base, outputs, n);
  }

  lemma Glue(all: seq<Action>, n: nat, now: seq<Action>, later: seq<Action>)
    requires n + |now| + |later| <= |all|
    requires now == all[n..n + |now|] && later == all[n + |now|..n + |now| + |later|]
    ensures now + later == all[n..n + |now + later|]
  {
  }

  // ---------------------------------------------------------------------------
  // No finished step acts again
  // ---------------------------------------------------------------------------

  /** The actions of a run are new, pairwise distinct, and remembered unless the run completes the execution. */
  ghost predicate Fresh(run: Run, completed: Resume, steps: seq<Step>, i: nat) {
    && KeyedFrom(run.actions, steps, i) && OncePerKey(run.actions)
    && (forall j :: 0 <= j < |run.actions| ==> run.actions[j].key !in completed)
    && (run.outcome.StepFailed? ==> forall j :: 0 <= j < |run.actions| ==> run.actions[j].key in run.completed)
    && (forall k :: k in completed ==> k in run.completed)
  }

  lemma KeyedPast(first: seq<Action>, rest: seq<Action>, steps: seq<Step>, i: nat)
    requires i < |steps| && KeyedFrom(rest, steps, i + 1)
    requires forall j :: 0 <= j < |first| ==> first[j].key == steps[i].key
    ensures KeyedFrom(first + rest, steps, i)
  {
  }

  lemma FreshPast(p: Progress, run: Run, completed: Resume, steps: seq<Step>, i: nat)
    requires i < |steps| && DistinctKeys(steps) && Fresh(run, p.completed, steps, i + 1)
    requires forall k :: k in completed ==> k in p.completed
    requires p.actions == [] || (|p.actions| == 1 && p.actions[0].key == steps[i].key && steps[i].key !in completed)
    requires p.actions != [] && run.outcome.StepFailed? ==> steps[i].key in p.completed
    ensures Fresh(Prepend(p, run), completed, steps, i)
  {
    KeyedPast(p.actions, run.actions, steps, i);
    assert forall j :: 0 <= j < |run.actions| ==> steps[i].key != run.actions[j].key;
  }

  lemma {:induction false} RunActsFresh(steps: seq<Step>, world: nat -> Turn, i: nat, ctx: Context, completed: Resume,
                                        saved: Resume)
    requires i <= |steps| && DistinctKeys(steps)
    ensures Fresh(RunFrom(steps, world, i, ctx, completed, saved), completed, steps, i)
    decreases |steps| - i
  {
    if i < |steps| {
      var p := TakeTurn(steps[i], i == |steps| - 1, world(i), ctx, completed, saved);
      if p.Ok? {
        var next := After(ctx, steps[i].key, p.value.entry);
        RunActsFresh(steps, world, i + 1, next, p.value.completed, p.value.saved);
        FreshPast(p.value, RunFrom(steps, world, i + 1, next, p.value.completed, p.value.saved), completed, steps, i);
      }
    }
  }

  /** The life cannot act again, or remembers every key of `actions` and everything it remembered before. */
  ghost predicate Remembers(life: Life, before: Resume, actions: seq<Action>) {
    DataOf(life).Some? ==>
      && (forall k :: k in before ==> k in DataOf(life).value.resume)
      && (forall j :: 0 <= j < |actions| ==> actions[j].key in DataOf(life).value.resume)
  }

  ghost predicate Avoids(actions: seq<Action>, before: Resume) {
    forall j :: 0 <= j < |actions| ==> actions[j].key !in before
  }

  lemma LifeStepFresh(cfg: Config, life: Life, e: Event, steps: seq<Step>, info: Json)
    requires DistinctKeys(steps) && SameWorkflow([e], steps, info) && SavesLand(cfg, life, [e])
    ensures var (next, actions) := Lived(cfg, life, e);
            && (DataOf(life).None? ==> DataOf(next).None? && actions == [])
            && (DataOf(life).Some? ==>
                  var before := DataOf(life).value.resume;
                  OncePerKey(actions) && Avoids(actions, before) && Remembers(next, before, actions))
  {
    hide RunFrom, TryStep, LastSaveLanded, RateLimitDelay, RetryDelayFor, DistinctKeys;
    if life.InQueue? && e.Deliver? && life.job.data.Some? {
      var data, attempt := life.job.data.value, life.job.attemptsMade + 1;
      assert [e][0] == e;
      assert SaveLands(cfg, life.job, e.visit);
      SaveLandsIffSaved(cfg, life.job, e.visit);
      if Ran(data, e.visit, attempt).Ok? {
        RunActsFresh(steps, e.visit.world, 0, ContextOf(data, e.visit.info, attempt), data.resume, data.resume);
      }
    }
  }

  /** Whatever fails, is postponed, dead-lettered or requeued, no step that finished acts a second time. */
  lemma {:induction false} NoStepActsTwice(cfg: Config, life: Life, events: seq<Event>, steps: seq<Step>, info: Json)
    requires DistinctKeys(steps) && SameWorkflow(events, steps, info) && SavesLand(cfg, life, events)
    ensures OncePerKey(Actions(cfg, life, events))
    ensures DataOf(life).None? ==> Actions(cfg, life, events) == []
    ensures DataOf(life).Some? ==> Avoids(Actions(cfg, life, events), DataOf(life).value.resume)
    decreases |events|
  {
    hide Lived, SaveLands;
    if events != [] {
      var e := events[0];
      var (next, now) := Lived(cfg, life, e);
      assert SavesLand(cfg, life, [e]) by { assert [e][1..] == []; }
      assert SameWorkflow([e], steps, info);
      assert forall i :: 0 <= i < |events[1..]| ==> events[1..][i] == events[i + 1];
      LifeStepFresh(cfg, life, e, steps, info);
      NoStepActsTwice(cfg, next, events[1..], steps, info);
      var rest := Actions(cfg, next, events[1..]);
      assert Actions(cfg, life, events) == now + rest;
    }
  }

  /** The output a step gave, read off the actions it took. */
  function OutputOf(actions: seq<Action>, key: string): Json {
    if actions == [] then Null else if actions[0].key == key then actions[0].output else OutputOf(actions[1..], key)
  }

  lemma {:induction false} OutputsAgree(actions: seq<Action>, j: nat)
    requires OncePerKey(actions) && j < |actions|
    ensures OutputOf(actions, actions[j].key) == actions[j].output
  {
    if j > 0 {
      assert actions[0].key != actions[j].key;
      OutputsAgree(actions[1..], j - 1);
    }
  }

  /**
   * Over any sequence of retries, postponements, dead letters and requeues, the successful actions are the
   * first ones of a single uninterrupted run with the same outputs, and all of them once the execution succeeds.
   */
  lemma ExecutionRefinesUninterruptedRun(cfg: Config, job: Job, events: seq<Event>, steps: seq<Step>, info: Json)
    requires DistinctKeys(steps) && Blind(steps)
    requires job.data.Some? && job.data.value.resume == map[]
    requires SameWorkflow(events, steps, info) && SavesLand(cfg, InQueue(job), events)
    ensures var actions := Actions(cfg, InQueue(job), events);
            var outputs := (key: string) => OutputOf(actions, key);
            var single := RunFrom(steps, Calm(steps, outputs), 0, ContextOf(job.data.value, info, 0), map[], map[]);
            && actions <= single.actions
            && (Final(cfg, InQueue(job), events).Ended? ==> actions == single.actions && single.outcome.Completed?)
  {
    var actions := Actions(cfg, InQueue(job), events);
    var outputs := (key: string) => OutputOf(actions, key);
    var base := ContextOf(job.data.value, info, 0);
    NoStepActsTwice(cfg, InQueue(job), events, steps, info);
    forall j | 0 <= j < |actions|
      ensures actions[j].output == outputs(actions[j].key)
    {
      OutputsAgree(actions, j);
    }
    assert OnTrack(InQueue(job), steps, base, IdealFrom(steps, 0, base, outputs), 0);
    hide RunFrom, IdealFrom, Calm, Actions, Final, Lived, SavesLand, DistinctKeys, Blind, Holds, OutputOf;
    LifeFollows(cfg, InQueue(job), events, steps, base, outputs, 0);
    CalmRunIsIdeal(steps, 0, base, map[], map[], outputs);
  }
}
