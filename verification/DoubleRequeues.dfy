/** A dead letter requeued twice, as a lost note allows, and what its two jobs do to one action per step. */
module DoubleRequeues {
  import opened Collections
  import opened WorkflowEngine
  import opened StepResume
  import opened JobLifecycle
  import opened JobRuns

  /** Something happens to one of an execution's lives, or a dead letter is requeued and put back all the same. */
  datatype Act = Happens(life: nat, e: Event) | RequeuedAndKept(life: nat, row: string, attempts: Option<int>)

  function Moved(cfg: Config, lives: seq<Life>, a: Act): (seq<Life>, seq<Action>) {
    if a.life >= |lives| then (lives, [])
    else
      match a
      case Happens(i, e) => (lives[i := Lived(cfg, lives[i], e).0], Lived(cfg, lives[i], e).1)
      case RequeuedAndKept(i, row, attempts) =>
        (if lives[i].Dead? then lives + [Lived(cfg, lives[i], Requeue(row, attempts)).0] else lives, [])
  }

  function AllActions(cfg: Config, lives: seq<Life>, acts: seq<Act>): seq<Action>
    decreases |acts|
  {
    if acts == [] then [] else Moved(cfg, lives, acts[0]).1 + AllActions(cfg, Moved(cfg, lives, acts[0]).0, acts[1..])
  }

  /** Every delivery runs the same workflow, and every save a plain retry depends on lands. */
  ghost predicate Orderly(cfg: Config, lives: seq<Life>, acts: seq<Act>, steps: seq<Step>, info: Json)
    decreases |acts|
  {
    acts == [] ||
    (&& (acts[0].Happens? && acts[0].life < |lives| ==>
           SameWorkflow([acts[0].e], steps, info) && SavesLand(cfg, lives[acts[0].life], [acts[0].e]))
     && Orderly(cfg, Moved(cfg, lives, acts[0]).0, acts[1..], steps, info))
  }

  ghost predicate NeverRepeats(cfg: Config, lives: seq<Life>, steps: seq<Step>, info: Json) {
    forall acts :: Orderly(cfg, lives, acts, steps, info) ==> OncePerKey(AllActions(cfg, lives, acts))
  }

  // ---- what is left to do ----

  /** The first step that is neither saved nor skipped can be rendered, so that its action is tried. */
  predicate CanStillAct(steps: seq<Step>, i: nat, ctx: Context, resume: Resume)
    requires i <= |steps|
    decreases |steps| - i
  {
    i < |steps| &&
    var key := steps[i].key;
    if key in resume then CanStillAct(steps, i + 1, After(ctx, key, Entry(resume[key], false)), resume)
    else
      match TryStep(steps[i], ctx, Turn(None, Ok(Null), true))
      case Fail(_) => false
      case Skip => CanStillAct(steps, i + 1, After(ctx, key, Entry(Null, true)), resume)
      case Done(_, _) => true
  }

  lemma {:induction false} NothingLeft(steps: seq<Step>, world: nat -> Turn, i: nat, ctx: Context, a: nat,
                                       resume: Resume)
    requires i <= |steps| && Blind(steps) && !CanStillAct(steps, i, ctx, resume)
    ensures var run := RunFrom(steps, world, i, ctx.(attempt := a), resume, resume);
            run.actions == [] && run.completed == run.saved == resume
    decreases |steps| - i
  {
    if i < |steps| {
      SameStep(steps[i], ctx, a, world(i), Null);
      var p := TakeTurn(steps[i], i == |steps| - 1, world(i), ctx.(attempt := a), resume, resume);
      if p.Ok? {
        NothingLeft(steps, world, i + 1, After(ctx, steps[i].key, p.value.entry), a, resume);
      }
    }
  }

  /** Nothing is aborted, every action succeeds, every save lands. */
  function Smooth(): nat -> Turn { (i: nat) => Turn(None, Ok(Null), true) }

  lemma {:induction false} SomethingLeft(steps: seq<Step>, i: nat, ctx: Context, a: nat, resume: Resume)
    requires i <= |steps| && Blind(steps) && CanStillAct(steps, i, ctx, resume)
    ensures RunFrom(steps, Smooth(), i, ctx.(attempt := a), resume, resume).actions != []
    decreases |steps| - i
  {
    SameTurn(steps[i], ctx, a);
    var p := TakeTurn(steps[i], i == |steps| - 1, Smooth()(i), ctx.(attempt := a), resume, resume).value;
    if p.actions == [] {
      SomethingLeft(steps, i + 1, After(ctx, steps[i].key, p.entry), a, resume);
    }
  }

  lemma SameTurn(step: Step, ctx: Context, a: nat)
    requires AttemptBlind(step)
    ensures TryStep(step, ctx.(attempt := a), Turn(None, Ok(Null), true)) ==
            TryStep(step, ctx, Turn(None, Ok(Null), true))
  {
    assert step.config(ctx.(attempt := a)) == step.config(ctx);
    if step.runIf.Some? {
      assert step.runIf.value(ctx.(attempt := a)) == step.runIf.value(ctx);
    }
  }

  // ---- nothing left: any number of requeues is harmless ----

  ghost predicate AllIdle(lives: seq<Life>, base: Context, resume: Resume) {
    forall i :: 0 <= i < |lives| ==> IsIdle(lives[i], base, resume)
  }

  ghost predicate IsIdle(life: Life, base: Context, resume: Resume) {
    DataOf(life).Some? ==>
      ContextOf(DataOf(life).value, base.workflow, 0) == base && DataOf(life).value.resume == resume
  }

  lemma IdleLifeDoesNothing(cfg: Config, life: Life, e: Event, steps: seq<Step>, base: Context, resume: Resume)
    requires Blind(steps) && !CanStillAct(steps, 0, base, resume)
    requires IsIdle(life, base, resume) && SameWorkflow([e], steps, base.workflow)
    ensures Lived(cfg, life, e).1 == [] && IsIdle(Lived(cfg, life, e).0, base, resume)
  {
    hide RunFrom, TryStep, Blind, CanStillAct;
    if life.InQueue? && e.Deliver? && life.job.data.Some? {
      var attempt := life.job.attemptsMade + 1;
      assert [e][0] == e;
      assert ContextOf(life.job.data.value, e.visit.info, attempt) == base.(attempt := attempt);
      if Ran(life.job.data.value, e.visit, attempt).Ok? {
        NothingLeft(steps, e.visit.world, 0, base, attempt, resume);
      }
    }
  }

  lemma {:induction false} IdleLivesDoNothing(
      cfg: Config, lives: seq<Life>, acts: seq<Act>, steps: seq<Step>, base: Context, resume: Resume)
    requires Blind(steps) && !CanStillAct(steps, 0, base, resume)
    requires AllIdle(lives, base, resume) && Orderly(cfg, lives, acts, steps, base.workflow)
    ensures AllActions(cfg, lives, acts) == []
    decreases |acts|
  {
    hide Lived, Blind, CanStillAct, IsIdle;
    if acts != [] {
      var a := acts[0];
      if a.life < |lives| {
        var e := if a.Happens? then a.e else Requeue(a.row, a.attempts);
        IdleLifeDoesNothing(cfg, lives[a.life], e, steps, base, resume);
      }
      IdleLivesDoNothing(cfg, Moved(cfg, lives, a).0, acts[1..], steps, base, resume);
    }
  }

  // ---- something left: the second job acts again ----

  function SmoothVisit(steps: seq<Step>, info: Json): Visit {
    Visit(0.0, 0.0, Ok(Some(steps)), info, Smooth(), 0.0, 0.0, true)
  }

  function JobOf(data: JobData, row: string, attempts: Option<int>): Job {
    Job(Some(data.(requeuedFrom := Some(row))), 0, attempts)
  }

  lemma SmoothDelivery(cfg: Config, job: Job, steps: seq<Step>, info: Json)
    requires Blind(steps) && job.data.Some?
    requires CanStillAct(steps, 0, ContextOf(job.data.value, info, 0), job.data.value.resume)
    ensures Lived(cfg, InQueue(job), Deliver(SmoothVisit(steps, info))).1 != []
    ensures SameWorkflow([Deliver(SmoothVisit(steps, info))], steps, info)
    ensures SavesLand(cfg, InQueue(job), [Deliver(SmoothVisit(steps, info))])
  {
    hide RunFrom, TryStep, CanStillAct, Blind, LastToSave;
    var attempt := job.attemptsMade + 1;
    SomethingLeft(steps, 0, ContextOf(job.data.value, info, 0), attempt, job.data.value.resume);
    assert [Deliver(SmoothVisit(steps, info))][1..] == [];
  }

  ghost predicate InOrder(cfg: Config, lives: seq<Life>, a: Act, steps: seq<Step>, info: Json) {
    a.Happens? && a.life < |lives| ==> SameWorkflow([a.e], steps, info) && SavesLand(cfg, lives[a.life], [a.e])
  }

  lemma OneMore(cfg: Config, lives: seq<Life>, a: Act, rest: seq<Act>, steps: seq<Step>, info: Json)
    ensures Orderly(cfg, lives, [a] + rest, steps, info) <==>
            InOrder(cfg, lives, a, steps, info) && Orderly(cfg, Moved(cfg, lives, a).0, rest, steps, info)
    ensures AllActions(cfg, lives, [a] + rest) == Moved(cfg, lives, a).1 + AllActions(cfg, Moved(cfg, lives, a).0, rest)
  {
    hide Moved, SameWorkflow, SavesLand;
    assert ([a] + rest)[1..] == rest;
  }

  lemma RequeueIsInOrder(cfg: Config, life: Life, row: string, attempts: Option<int>, steps: seq<Step>, info: Json)
    ensures SameWorkflow([Requeue(row, attempts)], steps, info) && SavesLand(cfg, life, [Requeue(row, attempts)])
  {
    assert [Requeue(row, attempts)][1..] == [];
  }

  lemma Twice(actions: seq<Action>)
    requires actions != []
    ensures !OncePerKey(actions + ([] + (actions + [])))
  {
    var both := actions + ([] + (actions + []));
    assert both[0].key == both[|actions|].key;
  }

  /** The letter is requeued once more, and both jobs are delivered. */
  lemma BothJobsAct(cfg: Config, data: JobData, row: string, attempts: Option<int>, steps: seq<Step>, info: Json)
    requires Blind(steps) && CanStillAct(steps, 0, ContextOf(data, info, 0), data.resume)
    ensures !NeverRepeats(cfg, [Dead(Some(data)), InQueue(JobOf(data, row, attempts))], steps, info)
  {
    var job, visit := JobOf(data, row, attempts), SmoothVisit(steps, info);
    assert ContextOf(job.data.value, info, 0) == ContextOf(data, info, 0);
    SmoothDelivery(cfg, job, steps, info);
    RequeueIsInOrder(cfg, Dead(Some(data)), row, attempts, steps, info);
    var (next, actions) := Lived(cfg, InQueue(job), Deliver(visit));
    assert Lived(cfg, Dead(Some(data)), Requeue(row, attempts)) == (InQueue(job), []);
    hide Lived, SavesLand, SameWorkflow, CanStillAct, Blind;
    var first, again, second := Happens(1, Deliver(visit)), Happens(0, Requeue(row, attempts)),
                                Happens(0, Deliver(visit));
    var lives0 := [Dead(Some(data)), InQueue(job)];
    var lives1, lives2 := lives0[1 := next], [InQueue(job), next];
    assert lives1[0 := InQueue(job)] == lives2;
    var lives3 := Moved(cfg, lives2, second).0;
    OneMore(cfg, lives2, second, [], steps, info);
    OneMore(cfg, lives1, again, [second] + [], steps, info);
    OneMore(cfg, lives0, first, [again] + ([second] + []), steps, info);
    var acts := [first] + ([again] + ([second] + []));
    hide Moved, Orderly;
    assert AllActions(cfg, lives3, []) == [];
    Twice(actions);
    assert AllActions(cfg, lives0, acts) == actions + ([] + (actions + []));
  }

  // ---- the exact condition ----

  /**
   * A dead letter has been requeued and put back all the same: no step acts twice, whatever follows, if and only if the
   * job had nothing left to do.
   */
  lemma SecondRequeueIsExact(cfg: Config, data: JobData, row: string, attempts: Option<int>, steps: seq<Step>,
                             info: Json)
    requires Blind(steps)
    ensures NeverRepeats(cfg, Moved(cfg, [Dead(Some(data))], RequeuedAndKept(0, row, attempts)).0, steps, info) <==>
            !CanStillAct(steps, 0, ContextOf(data, info, 0), data.resume)
  {
    var lives := [Dead(Some(data)), InQueue(JobOf(data, row, attempts))];
    assert Moved(cfg, [Dead(Some(data))], RequeuedAndKept(0, row, attempts)).0 == lives;
    if CanStillAct(steps, 0, ContextOf(data, info, 0), data.resume) {
      BothJobsAct(cfg, data, row, attempts, steps, info);
    } else {
      var base := ContextOf(data, info, 0);
      assert AllIdle(lives, base, data.resume);
      forall acts | Orderly(cfg, lives, acts, steps, info)
        ensures OncePerKey(AllActions(cfg, lives, acts))
      {
        IdleLivesDoNothing(cfg, lives, acts, steps, base, data.resume);
      }
    }
  }

  ghost predicate RequeuedOnce(acts: seq<Act>) {
    forall a :: a in acts ==> a.Happens?
  }

  /**
   * Where every dead letter is requeued once, at most, an execution has a single life, in which no finished step acts
   * again.
   */
  lemma {:induction false} SingleLife(cfg: Config, life: Life, acts: seq<Act>, steps: seq<Step>, info: Json)
    returns (events: seq<Event>)
    requires RequeuedOnce(acts) && Orderly(cfg, [life], acts, steps, info)
    ensures SameWorkflow(events, steps, info) && SavesLand(cfg, life, events)
    ensures AllActions(cfg, [life], acts) == Actions(cfg, life, events)
    decreases |acts|
  {
    events := [];
    if acts != [] {
      var a := acts[0];
      assert a in acts && RequeuedOnce(acts[1..]);
      if a.life == 0 {
        var next := Lived(cfg, life, a.e).0;
        assert [life][0 := next] == [next];
        var rest := SingleLife(cfg, next, acts[1..], steps, info);
        events := [a.e] + rest;
        FirstOf(cfg, life, a.e, rest, steps, info);
      } else {
        events := SingleLife(cfg, life, acts[1..], steps, info);
      }
    }
  }

  lemma FirstOf(cfg: Config, life: Life, e: Event, rest: seq<Event>, steps: seq<Step>, info: Json)
    requires SameWorkflow([e], steps, info) && SavesLand(cfg, life, [e])
    requires SameWorkflow(rest, steps, info) && SavesLand(cfg, Lived(cfg, life, e).0, rest)
    ensures SameWorkflow([e] + rest, steps, info) && SavesLand(cfg, life, [e] + rest)
    ensures Actions(cfg, life, [e] + rest) == Lived(cfg, life, e).1 + Actions(cfg, Lived(cfg, life, e).0, rest)
  {
    hide Lived, SaveLands;
    assert ([e] + rest)[1..] == rest && [e][0] == e;
    assert forall i :: 0 < i < |[e] + rest| ==> ([e] + rest)[i] == rest[i - 1];
  }

  lemma RequeuedOnceNeverRepeats(cfg: Config, life: Life, acts: seq<Act>, steps: seq<Step>, info: Json)
    requires DistinctKeys(steps) && RequeuedOnce(acts) && Orderly(cfg, [life], acts, steps, info)
    ensures OncePerKey(AllActions(cfg, [life], acts))
  {
    var events := SingleLife(cfg, life, acts, steps, info);
    NoStepActsTwice(cfg, life, events, steps, info);
  }
}
