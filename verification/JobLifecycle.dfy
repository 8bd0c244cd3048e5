/** The processor: success, postponement, retry or dead letter, and the queue (workers/automation.worker.ts). */
module JobLifecycle {
  import opened Collections
  import opened Numbers
  import opened Retry
  import opened WorkflowEngine

  datatype JobData = JobData(
    executionId: string,
    trigger: Json,
    resume: Resume,
    receivedAt: real,
    requeuedFrom: Option<string>,
    deferrals: nat)

  /** A queued job; its payload is absent when it does not parse. */
  datatype Job = Job(data: Option<JobData>, attemptsMade: nat, attempts: Option<int>)

  datatype ExecutionStatus = RUNNING | RETRYING | SUCCEEDED | DEAD_LETTERED

  datatype DeadLetter = DeadLetter(payload: Option<JobData>, category: Category, attempts: nat)

  datatype Config = Config(maxDeferMs: real, policy: BackoffPolicy)

  /** What one delivery of the job meets: its clock readings, the workflow lookup, the actions, the random draws. */
  datatype Visit = Visit(
    startedAt: real,
    finishedAt: real,
    workflow: Result<Option<seq<Step>>, AppError>,
    info: Json,
    world: nat -> Turn,
    jitter: real,
    backoff: real,
    token: bool)

  datatype Verdict =
    | Returned
    | Delayed(until: real)
    | Unrecoverable
    | Thrown(error: AppError)

  /** How the processor left the job and what it recorded. */
  datatype Report = Report(
    verdict: Verdict,
    data: Option<JobData>,
    statuses: seq<ExecutionStatus>,
    deadLetters: seq<DeadLetter>,
    actions: seq<Action>)

  function MaxAttempts(job: Job): nat {
    if job.attempts.Some? && job.attempts.value > 1 then job.attempts.value else 1
  }

  /** Retry-After plus jitter, at least ten milliseconds. */
  function RateLimitDelay(retryAfterMs: Option<real>, random: real): int {
    var base := MaxReal(if retryAfterMs.Some? then retryAfterMs.value else 1000.0, 10.0);
    Round(base + Drawn(random, MinReal(MaxReal(base, 100.0), 1000.0)))
  }

  function ContextOf(data: JobData, info: Json, attempt: nat): Context {
    Context(data.trigger, map[], info, data.executionId, attempt)
  }

  /** The engine run of a delivery, or the failure to find a workflow to run. */
  function Ran(data: JobData, visit: Visit, attempt: nat): Result<Run, AppError> {
    if visit.workflow.Err? then Err(visit.workflow.error)
    else if visit.workflow.value.None? then Err(AppError(CONFIGURATION, false, None))
    else
      Ok(RunFrom(visit.workflow.value.value, visit.world, 0, ContextOf(data, visit.info, attempt), data.resume,
                 data.resume))
  }

  /** The decision after a failed delivery. */
  function Decide(cfg: Config, job: Job, data: JobData, visit: Visit, error: AppError, completed: Resume, saved: Resume,
                  actions: seq<Action>): Report {
    var attempt := job.attemptsMade + 1;
    if error.category == RATE_LIMIT && visit.token && visit.finishedAt - data.receivedAt < cfg.maxDeferMs then
      var delay := RateLimitDelay(error.retryAfterMs, visit.jitter);
      Report(Delayed(visit.finishedAt + delay as real),
             Some(data.(resume := completed, deferrals := data.deferrals + 1)),
             [RUNNING, RETRYING], [], actions)
    else if !error.retryable || attempt >= MaxAttempts(job) then
      Report(if error.retryable then Thrown(error) else Unrecoverable, Some(data.(resume := saved)),
             [RUNNING, DEAD_LETTERED], [DeadLetter(Some(data.(resume := completed)), error.category, attempt)], actions)
    else
      Report(Thrown(error), Some(data.(resume := saved)), [RUNNING, RETRYING], [], actions)
  }

  function Processed(cfg: Config, job: Job, visit: Visit): Report {
    var attempt := job.attemptsMade + 1;
    if job.data.None? then
      Report(Unrecoverable, None, [], [DeadLetter(None, VALIDATION, attempt)], [])
    else
      var data := job.data.value;
      match Ran(data, visit, attempt)
      case Err(error) => Decide(cfg, job, data, visit, error, data.resume, data.resume, [])
      case Ok(run) =>
        if run.outcome.StepFailed?
        then Decide(cfg, job, data, visit, run.outcome.error, run.completed, run.saved, run.actions)
        else Report(Returned, Some(data.(resume := run.saved)), [RUNNING, SUCCEEDED], [], run.actions)
  }

  /** The processor with the job it works on and the sinks it writes to. */
  class Processor {
    const cfg: Config
    var job: Job
    var statuses: seq<ExecutionStatus>
    var deadLetters: seq<DeadLetter>

    constructor (cfg: Config, job: Job)
      ensures this.cfg == cfg && this.job == job && statuses == [] && deadLetters == []
    {
      this.cfg, this.job, statuses, deadLetters := cfg, job, [], [];
    }

    /** One delivery: records what happens and leaves on the job what the next delivery will see. */
    method Process(visit: Visit) returns (verdict: Verdict, actions: seq<Action>)
      modifies this
      ensures var r := Processed(cfg, old(job), visit);
              && verdict == r.verdict && actions == r.actions
              && job == old(job).(data := r.data)
              && statuses == old(statuses) + r.statuses
              && deadLetters == old(deadLetters) + r.deadLetters
    {
      hide RunFrom, RateLimitDelay;
      var attempt := job.attemptsMade + 1;
      if job.data.None? {
        deadLetters := deadLetters + [DeadLetter(None, VALIDATION, attempt)];
        return Unrecoverable, [];
      }
      var data := job.data.value;
      statuses := statuses + [RUNNING];
      var completed := data.resume;
      actions := [];
      var error: AppError;
      if visit.workflow.Err? {
        error := visit.workflow.error;
      } else if visit.workflow.value.None? {
        error := AppError(CONFIGURATION, false, None);
      } else {
        var run := Execute(visit.workflow.value.value, visit.world, ContextOf(data, visit.info, attempt), completed);
        job := job.(data := Some(data.(resume := run.saved)));
        completed := run.completed;
        actions := run.actions;
        if run.outcome.Completed? {
          statuses := statuses + [SUCCEEDED];
          return Returned, actions;
        }
        error := run.outcome.error;
      }
      if error.category == RATE_LIMIT && visit.token && visit.finishedAt - data.receivedAt < cfg.maxDeferMs {
        job := job.(data := Some(data.(resume := completed, deferrals := data.deferrals + 1)));
        statuses := statuses + [RETRYING];
        return Delayed(visit.finishedAt + RateLimitDelay(error.retryAfterMs, visit.jitter) as real), actions;
      }
      if !error.retryable || attempt >= MaxAttempts(job) {
        deadLetters := deadLetters + [DeadLetter(Some(data.(resume := completed)), error.category, attempt)];
        statuses := statuses + [DEAD_LETTERED];
        return if error.retryable then Thrown(error) else Unrecoverable, actions;
      }
      statuses := statuses + [RETRYING];
      return Thrown(error), actions;
    }
  }

  // ---------------------------------------------------------------------------
  // What each ending means
  // ---------------------------------------------------------------------------

  /** Why the attempt did not succeed: no workflow could be had, there is none, or a step failed. */
  ghost predicate EndedIn(data: JobData, visit: Visit, attempt: nat, error: AppError) {
    match visit.workflow
    case Err(e) => error == e
    case Ok(None) => error == AppError(CONFIGURATION, false, None)
    case Ok(Some(steps)) =>
      var outcome := RunFrom(steps, visit.world, 0, ContextOf(data, visit.info, attempt), data.resume,
                             data.resume).outcome;
      outcome.StepFailed? && error == outcome.error
  }

  /** The attempt ran all its steps. */
  ghost predicate WentThrough(data: JobData, visit: Visit, attempt: nat) {
    && visit.workflow.Ok? && visit.workflow.value.Some?
    && RunFrom(visit.workflow.value.value, visit.world, 0, ContextOf(data, visit.info, attempt), data.resume,
               data.resume).outcome.Completed?
  }

  /** The error is a rate limit, and there is time left to wait it out. */
  predicate IsPostponed(cfg: Config, data: JobData, visit: Visit, error: AppError) {
    error.category == RATE_LIMIT && visit.token && visit.finishedAt - data.receivedAt < cfg.maxDeferMs
  }

  predicate AttemptsLeft(job: Job) {
    job.attempts.Some? && job.attemptsMade + 1 < job.attempts.value
  }

  ghost predicate Postpones(r: Report, data: JobData, visit: Visit, error: AppError) {
    && r.verdict == Delayed(visit.finishedAt + RateLimitDelay(error.retryAfterMs, visit.jitter) as real)
    && r.statuses == [RUNNING, RETRYING] && r.deadLetters == []
    && r.data.Some? && r.data.value.deferrals == data.deferrals + 1
  }

  ghost predicate Buries(r: Report, verdict: Verdict, error: AppError, attempt: nat) {
    && r.verdict == verdict && r.statuses == [RUNNING, DEAD_LETTERED]
    && |r.deadLetters| == 1 && r.deadLetters[0].payload.Some?
    && r.deadLetters[0].category == error.category && r.deadLetters[0].attempts == attempt
  }

  ghost predicate TriesAgain(r: Report, error: AppError) {
    r.verdict == Thrown(error) && r.statuses == [RUNNING, RETRYING] && r.deadLetters == []
  }

  /**
   * Every delivery ends in exactly one of six ways: a malformed payload is buried at once; an attempt that went through
   * succeeds; a rate limit is postponed while there is time; of the other errors one that is not retryable is buried
   * for good, one that is retryable is buried once no attempt is left, and otherwise tried again.
   */
  lemma EndingIsDecidedRight(cfg: Config, job: Job, visit: Visit)
    ensures
      var r, attempt := Processed(cfg, job, visit), job.attemptsMade + 1;
      if job.data.None? then
        && r.verdict == Unrecoverable && r.statuses == [] && r.actions == []
        && r.deadLetters == [DeadLetter(None, VALIDATION, attempt)]
      else if WentThrough(job.data.value, visit, attempt) then
        r.verdict == Returned && r.statuses == [RUNNING, SUCCEEDED] && r.deadLetters == []
      else
        exists error :: EndedIn(job.data.value, visit, attempt, error) &&
          if IsPostponed(cfg, job.data.value, visit, error) then Postpones(r, job.data.value, visit, error)
          else if !error.retryable then Buries(r, Unrecoverable, error, attempt)
          else if AttemptsLeft(job) then TriesAgain(r, error)
          else Buries(r, Thrown(error), error, attempt)
  {
    var attempt := job.attemptsMade + 1;
    hide RunFrom, RateLimitDelay;
    if job.data.Some? && !WentThrough(job.data.value, visit, attempt) {
      var data := job.data.value;
      var error := match Ran(data, visit, attempt) case Err(e) => e case Ok(run) => run.outcome.error;
      assert EndedIn(data, visit, attempt, error);
    }
  }

  /** What a delivery leaves on the job, and what it did: the resume state is that of its engine run. */
  lemma ResumeIsKeptRight(cfg: Config, job: Job, visit: Visit)
    requires job.data.Some? && visit.workflow.Ok? && visit.workflow.value.Some?
    ensures
      var r, data := Processed(cfg, job, visit), job.data.value;
      var run := RunFrom(visit.workflow.value.value, visit.world, 0, ContextOf(data, visit.info, job.attemptsMade + 1),
                         data.resume, data.resume);
      && r.actions == run.actions && r.data.Some?
      && r.data.value == data.(resume := r.data.value.resume, deferrals := r.data.value.deferrals)
      && r.data.value.resume == (if r.verdict.Delayed? then run.completed else run.saved)
      && r.data.value.deferrals == (if r.verdict.Delayed? then data.deferrals + 1 else data.deferrals)
      && (r.deadLetters != [] ==> r.deadLetters[0].payload == Some(data.(resume := run.completed)))
  {
    hide RunFrom, RateLimitDelay;
  }

  // ---------------------------------------------------------------------------
  // The queue
  // ---------------------------------------------------------------------------

  datatype Phase =
    | Waiting(job: Job, due: real)
    | Finished
    | Stopped

  /**
   * What BullMQ does with the outcome. It counts every delivery except a postponed one, and decides on its
   * own, from the configured attempts alone, whether a thrown error is retried.
   */
  function Settled(cfg: Config, job: Job, visit: Visit): Phase {
    var r := Processed(cfg, job, visit);
    match r.verdict
    case Returned => Finished
    case Delayed(until) => Waiting(job.(data := r.data), until)
    case Unrecoverable => Stopped
    case Thrown(error) =>
      if job.attempts.Some? && job.attemptsMade + 1 < job.attempts.value then
        Waiting(job.(data := r.data, attemptsMade := job.attemptsMade + 1),
                visit.finishedAt + RetryDelayFor(error.retryAfterMs, job.attemptsMade + 1, cfg.policy, visit.backoff))
      else Stopped
  }
}
