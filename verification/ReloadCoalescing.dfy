/** Coalescing of concurrent snapshot reloads (`reload` in workflows/workflow-loader.ts). */
module ReloadCoalescing {
  import opened Collections

  /** A load under way: when it started, and when the callers that wait for it called. */
  datatype Pass = Pass(startedAt: nat, callers: seq<nat>)

  datatype Answer =
    | Resolved(calledAt: nat, swaps: nat)   // `swaps` loads had been swapped in
    | Rejected(calledAt: nat)

  /** `queued` outlives a failed pass; the next call that finds no pass under way resets it. */
  datatype State = State(
    reloading: Option<Pass>, queued: bool,
    // history
    clock: nat, calls: seq<nat>, loads: nat, swapped: seq<nat>, answers: seq<Answer>)

  datatype Step = Call | Loaded | LoadFails

  const INITIAL := State(None, false, 0, [], 0, [], [])

  predicate Enabled(s: State, e: Step) {
    e == Call || s.reloading.Some?
  }

  function Resolutions(callers: seq<nat>, swaps: nat): (r: seq<Answer>)
    ensures |r| == |callers| && forall i :: 0 <= i < |r| ==> r[i] == Resolved(callers[i], swaps)
  {
    seq(|callers|, i requires 0 <= i < |callers| => Resolved(callers[i], swaps))
  }

  function Rejections(callers: seq<nat>): (r: seq<Answer>)
    ensures |r| == |callers| && forall i :: 0 <= i < |r| ==> r[i] == Rejected(callers[i])
  {
    seq(|callers|, i requires 0 <= i < |callers| => Rejected(callers[i]))
  }

  function Apply(s: State, e: Step): State
    requires Enabled(s, e)
  {
    var now := s.clock + 1;
    match e
    case Call =>
      var called := s.(clock := now, calls := s.calls + [now]);
      if s.reloading.Some? then
        called.(queued := true, reloading := Some(Pass(s.reloading.value.startedAt, s.reloading.value.callers + [now])))
      else called.(queued := false, reloading := Some(Pass(now, [now])), loads := s.loads + 1)
    case Loaded =>
      var pass := s.reloading.value;
      var swapped := s.(clock := now, swapped := s.swapped + [pass.startedAt]);
      if s.queued then swapped.(queued := false, reloading := Some(Pass(now, pass.callers)), loads := s.loads + 1)
      else swapped.(reloading := None, answers := s.answers + Resolutions(pass.callers, |s.swapped| + 1))
    case LoadFails => s.(clock := now, reloading := None, answers := s.answers + Rejections(s.reloading.value.callers))
  }

  predicate Runs(s: State, steps: seq<Step>)
    decreases |steps|
  {
    steps == [] || (Enabled(s, steps[0]) && Runs(Apply(s, steps[0]), steps[1..]))
  }

  function After(s: State, steps: seq<Step>): State
    requires Runs(s, steps)
    decreases |steps|
  {
    if steps == [] then s else After(Apply(s, steps[0]), steps[1..])
  }

  // ---- freshness ----

  function CalledAt(answers: seq<Answer>): (r: seq<nat>)
    ensures |r| == |answers| && forall i :: 0 <= i < |r| ==> r[i] == answers[i].calledAt
  {
    seq(|answers|, i requires 0 <= i < |answers| => answers[i].calledAt)
  }

  function Waiting(s: State): seq<nat> {
    if s.reloading.Some? then s.reloading.value.callers else []
  }

  ghost predicate Fresh(s: State, a: Answer) {
    a.Resolved? ==> 0 < a.swaps <= |s.swapped| && s.swapped[a.swaps - 1] >= a.calledAt
  }

  /** A waiting caller called before the load under way started, or another load will follow. */
  ghost predicate Inv(s: State) {
    && (forall i :: 0 <= i < |Waiting(s)| ==> Waiting(s)[i] <= s.clock)
    && (s.reloading.Some? && !s.queued ==>
          forall i :: 0 <= i < |Waiting(s)| ==> Waiting(s)[i] <= s.reloading.value.startedAt)
    && (forall i :: 0 <= i < |s.answers| ==> Fresh(s, s.answers[i]))
    && CalledAt(s.answers) + Waiting(s) == s.calls
  }

  lemma StepKeepsInv(s: State, e: Step)
    requires Inv(s) && Enabled(s, e)
    ensures Inv(Apply(s, e))
  {
    var t := Apply(s, e);
    forall i | 0 <= i < |t.answers|
      ensures Fresh(t, t.answers[i])
    {
      if i < |s.answers| {
        assert Fresh(s, s.answers[i]);
      }
    }
    if e == Call {
      assert CalledAt(t.answers) + Waiting(t) == s.calls + [t.clock];
    } else if t.reloading == None {
      assert CalledAt(t.answers) == CalledAt(s.answers) + Waiting(s);
    }
  }

  lemma {:induction false} RunKeepsInv(s: State, steps: seq<Step>)
    requires Inv(s) && Runs(s, steps)
    ensures Inv(After(s, steps))
    decreases |steps|
  {
    if steps != [] {
      StepKeepsInv(s, steps[0]);
      RunKeepsInv(Apply(s, steps[0]), steps[1..]);
    }
  }

  /**
   * Every call is answered at most once, in the order of the calls, and when a promise resolves the last load swapped
   * in had started no earlier than the call.
   */
  lemma ResolvedReloadsAreFresh(steps: seq<Step>)
    requires Runs(INITIAL, steps)
    ensures
      var s := After(INITIAL, steps);
      && CalledAt(s.answers) + Waiting(s) == s.calls
      && forall i :: 0 <= i < |s.answers| && s.answers[i].Resolved? ==>
           0 < s.answers[i].swaps <= |s.swapped| && s.swapped[s.answers[i].swaps - 1] >= s.answers[i].calledAt
  {
    hide Apply, Runs, After;
    RunKeepsInv(INITIAL, steps);
    FreshAnswers(After(INITIAL, steps));
  }

  lemma FreshAnswers(s: State)
    requires Inv(s)
    ensures CalledAt(s.answers) + Waiting(s) == s.calls
    ensures forall i :: 0 <= i < |s.answers| && s.answers[i].Resolved? ==>
              0 < s.answers[i].swaps <= |s.swapped| && s.swapped[s.answers[i].swaps - 1] >= s.answers[i].calledAt
  {
    assert forall i :: 0 <= i < |s.answers| ==> Fresh(s, s.answers[i]);
  }

  // ---- cost ----

  function Calls(n: nat): seq<Step> {
    seq(n, i => Call)
  }

  /** Calls that find a load under way start none; they only ask for one more. */
  lemma {:induction false} CallsDuringALoad(s: State, n: nat)
    requires s.reloading.Some?
    ensures Runs(s, Calls(n))
    ensures
      var t := After(s, Calls(n));
      && t.loads == s.loads && t.reloading.Some? && t.swapped == s.swapped && t.answers == s.answers
      && t.reloading.value.startedAt == s.reloading.value.startedAt
      && |t.reloading.value.callers| == |s.reloading.value.callers| + n
      && t.queued == (s.queued || n > 0)
    decreases n
  {
    if n > 0 {
      assert Calls(n)[0] == Call && Calls(n)[1..] == Calls(n - 1);
      CallsDuringALoad(Apply(s, Call), n - 1);
    }
  }

  /** However many calls arrive during one load, they cost exactly one further load; without any, the pass ends. */
  lemma OneFurtherLoad(s: State, n: nat)
    requires s.reloading.Some? && !s.queued
    ensures Runs(s, Calls(n)) && Enabled(After(s, Calls(n)), Loaded)
    ensures
      var t := Apply(After(s, Calls(n)), Loaded);
      if n == 0 then t.loads == s.loads && t.reloading == None
      else t.loads == s.loads + 1 && t.reloading.Some? && !t.queued
  {
    CallsDuringALoad(s, n);
  }

  /**
   * A call that finds no pass under way, after a failure or not, costs one load, and a load that succeeds answers it.
   */
  lemma OneLoadWhenIdle(s: State)
    requires s.reloading == None
    ensures
      var called := Apply(s, Call);
      var loaded := Apply(called, Loaded);
      && called.loads == s.loads + 1 && loaded.loads == s.loads + 1 && loaded.reloading == None
      && |loaded.swapped| == |s.swapped| + 1 && |loaded.answers| == |s.answers| + 1
      && loaded.answers[|s.answers|].Resolved?
  {
  }

  /** No run starts more loads than there were calls. */
  lemma {:induction false} LoadsPerCall(s: State, steps: seq<Step>)
    requires Runs(s, steps) && s.loads + (if s.queued && s.reloading.Some? then 1 else 0) <= |s.calls|
    ensures After(s, steps).loads <= |After(s, steps).calls|
    decreases |steps|
  {
    if steps != [] {
      LoadsPerCall(Apply(s, steps[0]), steps[1..]);
    }
  }

  // ---- the loader's two fields ----

  class Reloader {
    var reloading: bool
    var reloadQueued: bool
    var loads: nat

    ghost predicate Shows(s: State)
      reads this
    {
      reloading == s.reloading.Some? && reloadQueued == s.queued && loads == s.loads
    }

    constructor ()
      ensures Shows(INITIAL)
    {
      reloading, reloadQueued, loads := false, false, 0;
    }

    /** The synchronous part of `reload`: the load starts before it returns. */
    method Reload(ghost s: State)
      requires Shows(s)
      modifies this
      ensures Shows(Apply(s, Call))
    {
      if reloading {
        reloadQueued := true;
        return;
      }
      reloading := true;
      reloadQueued := false;
      loads := loads + 1;
    }

    /** What follows the await: swap in, and go round again or finish. */
    method Continue(ghost s: State, ok: bool)
      requires Shows(s) && reloading
      modifies this
      ensures Shows(Apply(s, if ok then Loaded else LoadFails))
    {
      if !ok {
        reloading := false;
        return;
      }
      if reloadQueued {
        reloadQueued := false;
        loads := loads + 1;
      } else {
        reloading := false;
      }
    }
  }
}
