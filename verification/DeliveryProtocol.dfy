/** Any number of concurrent webhook deliveries, one atomic step each (gateway/webhook.ts, gateway/idempotency.ts). */
module DeliveryProtocol {
  import opened Collections
  import opened Idempotency

  type Key(==, !new) = (string, string)

  datatype Stage =
    | Arrived
    | Holding                    // the fast claim succeeded; the durable lookup is next
    | Recognised(original: EventId)  // the lookup found an earlier event; the reseed is next
    | Cleared                    // free to publish
    | Rejected                   // the publish failed; the release is next
    | Accepted
    | Duplicate(original: EventId)
    | Refused                    // answered with an error

  datatype Delivery = Delivery(key: Key, stage: Stage)

  datatype State = State(
    redis: map<Key, EventId>,
    durable: map<Key, EventId>,
    deliveries: map<EventId, Delivery>,
    published: seq<(Key, EventId)>)

  datatype Step =
    | Arrive(id: EventId, key: Key)
    | Claim(id: EventId)
    | ClaimFails(id: EventId)
    | LookUp(id: EventId)
    | LookUpFails(id: EventId)
    | Reseed(id: EventId)
    | ReseedFails(id: EventId)
    | Publish(id: EventId)
    | PublishFails(id: EventId)
    | Release(id: EventId)
    | ReleaseFails(id: EventId)
    | Record(id: EventId)        // the worker writes the durable row
    | Expire(key: Key)

  const INITIAL := State(map[], map[], map[], [])

  predicate At(s: State, id: EventId, stage: Stage) {
    id in s.deliveries && s.deliveries[id].stage == stage
  }

  predicate Enabled(s: State, e: Step) {
    match e
    case Arrive(id, _) => id !in s.deliveries
    case Claim(id) => At(s, id, Arrived)
    case ClaimFails(id) => At(s, id, Arrived)
    case LookUp(id) => At(s, id, Holding)
    case LookUpFails(id) => At(s, id, Holding)
    case Reseed(id) => id in s.deliveries && s.deliveries[id].stage.Recognised?
    case ReseedFails(id) => id in s.deliveries && s.deliveries[id].stage.Recognised?
    case Publish(id) => At(s, id, Cleared)
    case PublishFails(id) => At(s, id, Cleared)
    case Release(id) => At(s, id, Rejected)
    case ReleaseFails(id) => At(s, id, Rejected)
    case Record(id) => At(s, id, Accepted)
    case Expire(key) => true
  }

  function Move(s: State, id: EventId, stage: Stage): State
    requires id in s.deliveries
  {
    s.(deliveries := s.deliveries[id := s.deliveries[id].(stage := stage)])
  }

  function Apply(s: State, e: Step): State
    requires Enabled(s, e)
  {
    match e
    case Arrive(id, key) => s.(deliveries := s.deliveries[id := Delivery(key, Arrived)])
    case Claim(id) =>
      var (redis, r) := ClaimScript(s.redis, s.deliveries[id].key, id);
      Move(s, id, if r.Claimed? then Holding else Duplicate(r.eventId)).(redis := redis)
    case ClaimFails(id) => Move(s, id, Refused)
    case LookUp(id) =>
      var key := s.deliveries[id].key;
      Move(s, id, if key in s.durable then Recognised(s.durable[key]) else Cleared)
    case LookUpFails(id) => Move(s, id, Cleared)
    case Reseed(id) =>
      var d := s.deliveries[id];
      Move(s, id, Duplicate(d.stage.original)).(redis := s.redis[d.key := d.stage.original])
    case ReseedFails(id) => Move(s, id, Duplicate(s.deliveries[id].stage.original))
    case Publish(id) => Move(s, id, Accepted).(published := s.published + [(s.deliveries[id].key, id)])
    case PublishFails(id) => Move(s, id, Rejected)
    case Release(id) => Move(s, id, Refused).(redis := ReleaseScript(s.redis, s.deliveries[id].key, id))
    case ReleaseFails(id) => Move(s, id, Refused)
    case Record(id) =>
      var key := s.deliveries[id].key;
      if key in s.durable then s else s.(durable := s.durable[key := id])
    case Expire(key) => s.(redis := s.redis - {key})
  }

  predicate Runs(s: State, steps: seq<Step>)
    decreases |steps|
  {
    steps == [] || (Enabled(s, steps[0]) && Runs(Apply(s, steps[0]), steps[1..]))
  }

  function After(s: State, steps: seq<Step>): State
    requires Runs(s, steps)
    decreases |steps|
  {
    if steps == [] then s else After(Apply(s, steps[0]), steps[1..])
  }

  /**
   * The two things the protocol asks of its environment: a Redis key expires under a delivery that may still publish,
   * or that has published, only once the durable record exists; and a lookup fails only while there is no record to
   * find.
   */
  predicate Safe(s: State, e: Step) {
    match e
    case Expire(key) =>
      key in s.redis && key !in s.durable && s.redis[key] in s.deliveries ==>
        s.deliveries[s.redis[key]].stage !in {Holding, Cleared, Accepted}
    case LookUpFails(id) => id in s.deliveries && s.deliveries[id].key !in s.durable
    case _ => true
  }

  predicate SafeRun(s: State, steps: seq<Step>)
    requires Runs(s, steps)
    decreases |steps|
  {
    steps == [] || (Safe(s, steps[0]) && SafeRun(Apply(s, steps[0]), steps[1..]))
  }

  /** Who still has a say over `key`. */
  ghost predicate Guards(s: State, id: EventId, d: Delivery) {
    match d.stage
    case Arrived => true
    case Holding => d.key in s.durable || (d.key in s.redis && s.redis[d.key] == id)
    case Recognised(o) => d.key in s.durable && s.durable[d.key] == o
    case Cleared => d.key !in s.durable && d.key in s.redis && s.redis[d.key] == id
    case Accepted => d.key in s.durable || (d.key in s.redis && s.redis[d.key] == id)
    case Duplicate(o) => o != id && o in s.deliveries && s.deliveries[o].key == d.key
    case _ => true
  }

  ghost predicate PublishedOnce(published: seq<(Key, EventId)>) {
    forall i, j :: 0 <= i < j < |published| ==> published[i].0 != published[j].0
  }

  ghost predicate AllGuarded(s: State) {
    forall id :: id in s.deliveries ==> Guards(s, id, s.deliveries[id])
  }

  ghost predicate ClaimsNamed(s: State) {
    forall key :: key in s.redis ==>
      s.redis[key] in s.deliveries && s.deliveries[s.redis[key]].key == key &&
        !s.deliveries[s.redis[key]].stage.Arrived?
  }

  ghost predicate RecordsAccepted(s: State) {
    forall key :: key in s.durable ==>
      s.durable[key] in s.deliveries && s.deliveries[s.durable[key]] == Delivery(key, Accepted)
  }

  ghost predicate PublishedAccepted(s: State) {
    && (forall i :: 0 <= i < |s.published| ==>
          s.published[i].1 in s.deliveries && s.deliveries[s.published[i].1] == Delivery(s.published[i].0, Accepted))
    && (forall id :: id in s.deliveries && s.deliveries[id].stage.Accepted? ==>
        (s.deliveries[id].key, id) in s.published)
  }

  ghost predicate Inv(s: State) {
    AllGuarded(s) && ClaimsNamed(s) && RecordsAccepted(s) && PublishedAccepted(s) && PublishedOnce(s.published)
  }

  /** A step that only moves one delivery on keeps the invariant if the delivery's new stage is guarded. */
  lemma MoveKeepsInv(s: State, id: EventId, stage: Stage)
    requires Inv(s) && id in s.deliveries && !s.deliveries[id].stage.Accepted? && !stage.Accepted? && !stage.Arrived?
    requires Guards(s, id, Delivery(s.deliveries[id].key, stage))
    ensures Inv(Move(s, id, stage))
  {
    var t := Move(s, id, stage);
    assert forall x :: x in s.deliveries ==> x in t.deliveries && t.deliveries[x].key == s.deliveries[x].key;
    forall x | x in t.deliveries
      ensures Guards(t, x, t.deliveries[x])
    {
      assert Guards(s, x, t.deliveries[x]);
    }
  }

  lemma ClaimKeepsInv(s: State, id: EventId)
    requires Inv(s) && At(s, id, Arrived)
    ensures Inv(Apply(s, Claim(id)))
  {
    var key := s.deliveries[id].key;
    if key in s.redis {
      MoveKeepsInv(s, id, Duplicate(s.redis[key]));
    } else {
      var t := Apply(s, Claim(id));
      forall x | x in t.deliveries
        ensures Guards(t, x, t.deliveries[x])
      {
        assert x != id ==> Guards(s, x, s.deliveries[x]);
      }
    }
  }

  lemma ReseedKeepsInv(s: State, id: EventId)
    requires Inv(s) && id in s.deliveries && s.deliveries[id].stage.Recognised?
    ensures Inv(Apply(s, Reseed(id)))
  {
    var d := s.deliveries[id];
    assert Guards(s, id, d);
    MoveKeepsInv(s, id, Duplicate(d.stage.original));
    var moved, t := Move(s, id, Duplicate(d.stage.original)), Apply(s, Reseed(id));
    forall x | x in t.deliveries
      ensures Guards(t, x, t.deliveries[x])
    {
      assert Guards(moved, x, moved.deliveries[x]);
    }
  }

  lemma PublishKeepsGuards(s: State, id: EventId)
    requires Inv(s) && At(s, id, Cleared)
    ensures var t := Apply(s, Publish(id)); AllGuarded(t) && ClaimsNamed(t) && RecordsAccepted(t)
  {
    var t := Apply(s, Publish(id));
    forall x | x in t.deliveries
      ensures Guards(t, x, t.deliveries[x])
    {
      assert Guards(s, x, s.deliveries[x]);
    }
  }

  lemma PublishKeepsInv(s: State, id: EventId)
    requires Inv(s) && At(s, id, Cleared)
    ensures Inv(Apply(s, Publish(id)))
  {
    PublishKeepsGuards(s, id);
    NobodyPublished(s, id);
    hide AllGuarded, ClaimsNamed, RecordsAccepted, Guards;
    var key, t := s.deliveries[id].key, Apply(s, Publish(id));
    assert t.published[|s.published|] == (key, id);
    forall x | x in t.deliveries && t.deliveries[x].stage.Accepted?
      ensures (t.deliveries[x].key, x) in t.published
    {
      assert x != id ==> (s.deliveries[x].key, x) in s.published;
    }
  }

  lemma ReleaseKeepsInv(s: State, id: EventId)
    requires Inv(s) && At(s, id, Rejected)
    ensures Inv(Apply(s, Release(id)))
  {
    MoveKeepsInv(s, id, Refused);
    var moved, t := Move(s, id, Refused), Apply(s, Release(id));
    forall x | x in t.deliveries
      ensures Guards(t, x, t.deliveries[x])
    {
      assert Guards(moved, x, moved.deliveries[x]);
    }
  }

  lemma RecordKeepsInv(s: State, id: EventId)
    requires Inv(s) && At(s, id, Accepted)
    ensures Inv(Apply(s, Record(id)))
  {
    var t := Apply(s, Record(id));
    forall x | x in t.deliveries
      ensures Guards(t, x, t.deliveries[x])
    {
      assert Guards(s, x, s.deliveries[x]) && Guards(s, id, s.deliveries[id]);
    }
  }

  lemma ExpireKeepsInv(s: State, key: Key)
    requires Inv(s) && Safe(s, Expire(key))
    ensures Inv(Apply(s, Expire(key)))
  {
    var t := Apply(s, Expire(key));
    forall x | x in t.deliveries
      ensures Guards(t, x, t.deliveries[x])
    {
      assert Guards(s, x, s.deliveries[x]);
    }
  }

  lemma SafeStepKeepsInv(s: State, e: Step)
    requires Inv(s) && Enabled(s, e) && Safe(s, e)
    ensures Inv(Apply(s, e))
  {
    match e
    case Arrive(id, key) =>
      var t := Apply(s, e);
      forall x | x in t.deliveries
        ensures Guards(t, x, t.deliveries[x])
      {
        assert x != id ==> Guards(s, x, s.deliveries[x]);
      }
    case Claim(id) => ClaimKeepsInv(s, id);
    case Reseed(id) => ReseedKeepsInv(s, id);
    case Publish(id) => PublishKeepsInv(s, id);
    case Release(id) => ReleaseKeepsInv(s, id);
    case Record(id) => RecordKeepsInv(s, id);
    case Expire(key) => ExpireKeepsInv(s, key);
    case ClaimFails(id) => MoveKeepsInv(s, id, Refused);
    case LookUp(id) =>
      var key := s.deliveries[id].key;
      assert Guards(s, id, s.deliveries[id]);
      MoveKeepsInv(s, id, if key in s.durable then Recognised(s.durable[key]) else Cleared);
    case LookUpFails(id) =>
      assert Guards(s, id, s.deliveries[id]);
      MoveKeepsInv(s, id, Cleared);
    case ReseedFails(id) =>
      assert Guards(s, id, s.deliveries[id]);
      MoveKeepsInv(s, id, Duplicate(s.deliveries[id].stage.original));
    case PublishFails(id) => MoveKeepsInv(s, id, Rejected);
    case ReleaseFails(id) => MoveKeepsInv(s, id, Refused);
  }

  /** While a delivery is free to publish, nobody has published its key. */
  lemma NobodyPublished(s: State, id: EventId)
    requires Inv(s) && At(s, id, Cleared)
    ensures forall i :: 0 <= i < |s.published| ==> s.published[i].0 != s.deliveries[id].key
  {
    assert Guards(s, id, s.deliveries[id]);
    forall i | 0 <= i < |s.published|
      ensures s.published[i].0 != s.deliveries[id].key
    {
      assert Guards(s, s.published[i].1, s.deliveries[s.published[i].1]);
    }
  }

  lemma {:induction false} SafeRunKeepsInv(s: State, steps: seq<Step>)
    requires Inv(s) && Runs(s, steps) && SafeRun(s, steps)
    ensures Inv(After(s, steps))
    decreases |steps|
  {
    if steps != [] {
      SafeStepKeepsInv(s, steps[0]);
      SafeRunKeepsInv(Apply(s, steps[0]), steps[1..]);
    }
  }

  /** In every interleaving of any number of deliveries, each endpoint and key is published at most once. */
  lemma AtMostOnePublish(steps: seq<Step>)
    requires Runs(INITIAL, steps) && SafeRun(INITIAL, steps)
    ensures PublishedOnce(After(INITIAL, steps).published)
  {
    SafeRunKeepsInv(INITIAL, steps);
  }

  /** The runs of `s` that begin with `e` and are safe from then on never publish a key twice. */
  ghost predicate NeverTwiceAfter(s: State, e: Step)
    requires Enabled(s, e)
  {
    forall rest :: Runs(Apply(s, e), rest) && SafeRun(Apply(s, e), rest) ==>
      PublishedOnce(After(Apply(s, e), rest).published)
  }

  /** One more step, seen from the front of the run. */
  lemma Prepend(s: State, e: Step, rest: seq<Step>)
    requires Enabled(s, e) && Safe(s, e) && Runs(Apply(s, e), rest) && SafeRun(Apply(s, e), rest)
    ensures Runs(s, [e] + rest) && SafeRun(s, [e] + rest) && After(s, [e] + rest) == After(Apply(s, e), rest)
  {
    assert ([e] + rest)[1..] == rest;
  }

  /** A delivery nobody stands in the way of publishes in three steps; its key then occurs one more time. */
  lemma FreshDeliveryPublishes(s: State, other: EventId, key: Key) returns (rest: seq<Step>)
    requires other !in s.deliveries && key !in s.redis && key !in s.durable
    ensures Runs(s, rest) && SafeRun(s, rest) && After(s, rest).published == s.published + [(key, other)]
    ensures forall id :: id in s.deliveries ==>
              id in After(s, rest).deliveries && After(s, rest).deliveries[id] == s.deliveries[id]
    ensures After(s, rest).durable == s.durable && forall e :: e in rest ==> !e.Expire?
  {
    var s1 := Apply(s, Arrive(other, key));
    var s2 := Apply(s1, Claim(other));
    var s3 := Apply(s2, LookUp(other));
    Prepend(s3, Publish(other), []);
    Prepend(s2, LookUp(other), [Publish(other)]);
    Prepend(s1, Claim(other), [LookUp(other)] + [Publish(other)]);
    rest := [Arrive(other, key)] + ([Claim(other)] + ([LookUp(other)] + [Publish(other)]));
    Prepend(s, Arrive(other, key), [Claim(other)] + ([LookUp(other)] + [Publish(other)]));
  }

  lemma {:induction false} Chain(s: State, a: seq<Step>, b: seq<Step>)
    requires Runs(s, a) && SafeRun(s, a) && Runs(After(s, a), b) && SafeRun(After(s, a), b)
    ensures Runs(s, a + b) && SafeRun(s, a + b) && After(s, a + b) == After(After(s, a), b)
    decreases |a|
  {
    if a == [] {
      assert a + b == b;
    } else {
      Chain(Apply(s, a[0]), a[1..], b);
      assert (a + b)[1..] == a[1..] + b;
    }
  }

  /** A delivery that has looked up nothing publishes next, or after its lookup. */
  lemma HolderPublishes(u: State, holder: EventId) returns (more: seq<Step>)
    requires holder in u.deliveries && u.deliveries[holder].key !in u.durable
    requires At(u, holder, Holding) || At(u, holder, Cleared)
    ensures Runs(u, more) && SafeRun(u, more) &&
            After(u, more).published == u.published + [(u.deliveries[holder].key, holder)]
  {
    more := [Publish(holder)];
    if At(u, holder, Holding) {
      Prepend(Apply(u, LookUp(holder)), Publish(holder), []);
      Prepend(u, LookUp(holder), more);
      more := [LookUp(holder)] + more;
    } else {
      Prepend(u, Publish(holder), []);
    }
  }

  /** A claim that expires before its delivery is on durable record lets a second delivery publish the same key. */
  lemma EarlyExpiryPublishesTwice(s: State, key: Key, other: EventId)
    requires Inv(s) && !Safe(s, Expire(key)) && other !in s.deliveries
    ensures !NeverTwiceAfter(s, Expire(key))
  {
    var holder, t := s.redis[key], Apply(s, Expire(key));
    var first := FreshDeliveryPublishes(t, other, key);
    var u := After(t, first);
    assert u.published[|s.published|] == (key, other);
    if s.deliveries[holder].stage.Accepted? {
      assert (key, holder) in s.published;
      var i :| 0 <= i < |s.published| && s.published[i] == (key, holder);
      assert u.published[i] == (key, holder);
      return;
    }
    hide Apply, Runs, SafeRun, After;
    var more := HolderPublishes(u, holder);
    Chain(t, first, more);
    assert After(u, more).published == u.published + [(key, holder)];
    assert After(u, more).published[|s.published|].0 == key && After(u, more).published[|s.published| + 1].0 == key;
    assert Runs(t, first + more);
  }

  /** A lookup that fails although the key is on record lets the delivery publish it again. */
  lemma FailedLookupPublishesTwice(s: State, id: EventId)
    requires Inv(s) && Enabled(s, LookUpFails(id)) && !Safe(s, LookUpFails(id))
    ensures !NeverTwiceAfter(s, LookUpFails(id))
  {
    var key, t := s.deliveries[id].key, Apply(s, LookUpFails(id));
    var original := s.durable[key];
    assert (key, original) in s.published;
    var i :| 0 <= i < |s.published| && s.published[i] == (key, original);
    Prepend(t, Publish(id), []);
    var u := After(t, [Publish(id)]);
    assert u.published == s.published + [(key, id)];
    assert u.published[i].0 == key && u.published[|s.published|].0 == key;
  }

  /**
   * The condition on the environment is exact: a step keeps every later safe run to one publish per key if and only if
   * it is safe.
   */
  lemma SafetyIsExact(s: State, e: Step, other: EventId)
    requires Inv(s) && Enabled(s, e) && other !in s.deliveries
    ensures Safe(s, e) <==> NeverTwiceAfter(s, e)
  {
    if Safe(s, e) {
      SafeStepKeepsInv(s, e);
      forall rest | Runs(Apply(s, e), rest) && SafeRun(Apply(s, e), rest)
        ensures PublishedOnce(After(Apply(s, e), rest).published)
      {
        SafeRunKeepsInv(Apply(s, e), rest);
      }
    } else {
      match e
      case Expire(key) => EarlyExpiryPublishesTwice(s, key, other);
      case LookUpFails(id) => FailedLookupPublishesTwice(s, id);
    }
  }

  /** Along the run `key` does not expire, its holder does not release it, and no recognised original replaces it. */
  predicate Undisturbed(s: State, steps: seq<Step>, key: Key, holder: EventId)
    requires Runs(s, steps)
    decreases |steps|
  {
    steps == [] ||
    (&& steps[0] != Expire(key)
     && steps[0] != Release(holder)
     && !(steps[0].Reseed? && s.deliveries[steps[0].id].key == key)
     && Undisturbed(Apply(s, steps[0]), steps[1..], key, holder))
  }

  /**
   * However late the others release, a delivery's claim stays until it expires, is replaced, or the delivery itself
   * releases it.
   */
  lemma {:induction false} LateReleaseSparesOthers(s: State, steps: seq<Step>, key: Key, holder: EventId)
    requires Runs(s, steps) && key in s.redis && s.redis[key] == holder && Undisturbed(s, steps, key, holder)
    ensures key in After(s, steps).redis && After(s, steps).redis[key] == holder
    decreases |steps|
  {
    if steps != [] {
      LateReleaseSparesOthers(Apply(s, steps[0]), steps[1..], key, holder);
    }
  }

  ghost predicate CanPublish(s: State, key: Key, id: EventId) {
    exists rest :: Runs(s, rest) && SafeRun(s, rest) && After(s, rest).published == s.published + [(key, id)]
  }

  /** After a failed publish and its release, the sender's next delivery can be published. */
  lemma RetryAfterReleaseIsAccepted(s: State, id: EventId, other: EventId)
    requires Inv(s) && At(s, id, Cleared) && other !in s.deliveries
    ensures CanPublish(Apply(Apply(s, PublishFails(id)), Release(id)), s.deliveries[id].key, other)
  {
    assert Guards(s, id, s.deliveries[id]);
    var t := Apply(Apply(s, PublishFails(id)), Release(id));
    var rest := FreshDeliveryPublishes(t, other, s.deliveries[id].key);
    assert Runs(t, rest);
  }

  ghost predicate IsPublished(s: State, key: Key) {
    exists i :: 0 <= i < |s.published| && s.published[i].0 == key
  }

  /**
   * `id` could not publish and still has the claim of `key`; nobody else is past the claim, and nobody has published
   * it.
   */
  ghost predicate Blocked(s: State, key: Key, id: EventId) {
    && key in s.redis && s.redis[key] == id && key !in s.durable && !IsPublished(s, key)
    && (At(s, id, Rejected) || At(s, id, Refused)) && s.deliveries[id].key == key
    && forall x :: x in s.deliveries && s.deliveries[x].key == key ==> Waits(s.deliveries[x].stage)
  }

  predicate Waits(stage: Stage) {
    stage.Arrived? || stage.Rejected? || stage.Refused? || stage.Duplicate?
  }

  /** While `id` does not release its claim and the claim does not expire, every step leaves `key` blocked. */
  lemma BlockedStays(s: State, e: Step, key: Key, id: EventId)
    requires Blocked(s, key, id) && Enabled(s, e) && e != Expire(key) && e != Release(id)
    ensures Blocked(Apply(s, e), key, id)
    ensures At(s, id, Refused) ==> At(Apply(s, e), id, Refused)
  {
    var t := Apply(s, e);
    if e.Publish? {
      assert s.deliveries[e.id].key != key;
      assert forall i :: 0 <= i < |s.published| ==> s.published[i].0 != key;
    } else {
      assert t.published == s.published;
    }
  }

  /** A claim of a blocked key is answered as a duplicate of the event that was never published. */
  lemma BlockedClaimIsADuplicate(s: State, x: EventId, key: Key, id: EventId)
    requires Blocked(s, key, id) && Enabled(s, Claim(x)) && s.deliveries[x].key == key
    ensures At(Apply(s, Claim(x)), x, Duplicate(id))
  {
  }

  lemma {:induction false} BlockedWhileWaiting(s: State, steps: seq<Step>, key: Key, id: EventId)
    requires Blocked(s, key, id) && Runs(s, steps) && Expire(key) !in steps
    requires Release(id) !in steps || At(s, id, Refused)
    ensures Blocked(After(s, steps), key, id)
    ensures At(s, id, Refused) ==> At(After(s, steps), id, Refused)
    decreases |steps|
  {
    hide Apply, Blocked;
    if steps != [] {
      assert steps[0] in steps && forall e :: e in steps[1..] ==> e in steps;
      if At(s, id, Refused) { assert !Enabled(s, Release(id)); }
      BlockedStays(s, steps[0], key, id);
      BlockedWhileWaiting(Apply(s, steps[0]), steps[1..], key, id);
    }
  }

  /** What became of the deliveries of `key` that were not there `before`. */
  ghost predicate NewcomersTurnedAway(s: State, before: set<EventId>, key: Key, id: EventId) {
    forall x :: x in s.deliveries && x !in before && s.deliveries[x].key == key ==>
      s.deliveries[x].stage in {Arrived, Duplicate(id), Refused}
  }

  lemma NewcomerStep(s: State, e: Step, before: set<EventId>, key: Key, id: EventId)
    requires Blocked(s, key, id) && NewcomersTurnedAway(s, before, key, id) && Enabled(s, e)
    ensures NewcomersTurnedAway(Apply(s, e), before, key, id)
  {
    assert forall x, o :: x in s.deliveries && x !in before && s.deliveries[x].key == key ==>
      s.deliveries[x].stage != Recognised(o);
  }

  lemma {:induction false} NewcomersAreTurnedAway(s: State, steps: seq<Step>, before: set<EventId>, key: Key,
                                                  id: EventId)
    requires Blocked(s, key, id) && At(s, id, Refused) && NewcomersTurnedAway(s, before, key, id)
    requires Runs(s, steps) && Expire(key) !in steps
    ensures NewcomersTurnedAway(After(s, steps), before, key, id)
    decreases |steps|
  {
    hide Apply, Blocked, NewcomersTurnedAway;
    if steps != [] {
      assert steps[0] in steps && forall e :: e in steps[1..] ==> e in steps;
      assert !Enabled(s, Release(id));
      BlockedStays(s, steps[0], key, id);
      NewcomerStep(s, steps[0], before, key, id);
      NewcomersAreTurnedAway(Apply(s, steps[0]), steps[1..], before, key, id);
    }
  }

  /** The publish of `id` fails, and then others act, but `id` does not and its claim does not expire. */
  ghost predicate RejectedThen(s: State, id: EventId, between: seq<Step>) {
    && At(s, id, Cleared) && Runs(Apply(s, PublishFails(id)), between)
    && Release(id) !in between && ReleaseFails(id) !in between && Expire(s.deliveries[id].key) !in between
  }

  lemma RejectedIsBlocked(s: State, id: EventId, between: seq<Step>)
    requires Inv(s) && RejectedThen(s, id, between)
    ensures
      var t := After(Apply(s, PublishFails(id)), between);
      Blocked(t, s.deliveries[id].key, id)
  {
    NobodyPublished(s, id);
    assert Guards(s, id, s.deliveries[id]);
    var key, t := s.deliveries[id].key, Apply(s, PublishFails(id));
    forall x | x in t.deliveries && t.deliveries[x].key == key
      ensures Waits(t.deliveries[x].stage)
    {
      assert Guards(s, x, s.deliveries[x]);
    }
    BlockedWhileWaiting(t, between, key, id);
  }

  /** Some continuation in which the claim of `key` does not expire publishes it. */
  ghost predicate CanPublishUnexpired(s: State, key: Key) {
    exists rest :: Runs(s, rest) && Expire(key) !in rest && IsPublished(After(s, rest), key)
  }

  /**
   * After a failed publish the key can be published before its claim expires if and only if the release does not fail
   * too.
   */
  lemma RetryWorksIffReleased(s: State, id: EventId, between: seq<Step>, e: Step, other: EventId)
    requires Inv(s) && RejectedThen(s, id, between) && e in {Release(id), ReleaseFails(id)}
    requires
      var t := After(Apply(s, PublishFails(id)), between);
      Enabled(t, e) && other !in t.deliveries
    ensures
      var t := After(Apply(s, PublishFails(id)), between);
      CanPublishUnexpired(Apply(t, e), s.deliveries[id].key) <==> e == Release(id)
  {
    var key, t := s.deliveries[id].key, After(Apply(s, PublishFails(id)), between);
    RejectedIsBlocked(s, id, between);
    if e == Release(id) {
      var rest := FreshDeliveryPublishes(Apply(t, e), other, key);
      assert After(Apply(t, e), rest).published[|t.published|] == (key, other);
      assert Runs(Apply(t, e), rest) && Expire(key) !in rest;
    } else {
      BlockedStays(t, e, key, id);
      forall rest | Runs(Apply(t, e), rest) && Expire(key) !in rest
        ensures !IsPublished(After(Apply(t, e), rest), key)
      {
        BlockedWhileWaiting(Apply(t, e), rest, key, id);
      }
    }
  }

  /**
   * Until the claim expires, every later delivery of the key waits, fails, or is answered as a duplicate of the event
   * that was never published; once it has expired, the next one can be published.
   */
  lemma RefusedUntilExpiry(s: State, id: EventId, between: seq<Step>, rest: seq<Step>, other: EventId)
    requires Inv(s) && RejectedThen(s, id, between)
    requires
      var t := After(Apply(s, PublishFails(id)), between);
      Enabled(t, ReleaseFails(id)) && Runs(Apply(t, ReleaseFails(id)), rest) && Expire(s.deliveries[id].key) !in rest
    requires other !in After(Apply(After(Apply(s, PublishFails(id)), between), ReleaseFails(id)), rest).deliveries
    ensures
      var key, t := s.deliveries[id].key, Apply(After(Apply(s, PublishFails(id)), between), ReleaseFails(id));
      var u := After(t, rest);
      && NewcomersTurnedAway(u, t.deliveries.Keys, key, id) && !IsPublished(u, key)
      && (forall x :: At(u, x, Arrived) && u.deliveries[x].key == key ==> At(Apply(u, Claim(x)), x, Duplicate(id)))
      && Safe(u, Expire(key)) && CanPublish(Apply(u, Expire(key)), key, other)
  {
    var key, t := s.deliveries[id].key, After(Apply(s, PublishFails(id)), between);
    RejectedIsBlocked(s, id, between);
    BlockedStays(t, ReleaseFails(id), key, id);
    var u := Apply(t, ReleaseFails(id));
    BlockedWhileWaiting(u, rest, key, id);
    NewcomersAreTurnedAway(u, rest, u.deliveries.Keys, key, id);
    forall x | At(After(u, rest), x, Arrived) && After(u, rest).deliveries[x].key == key
      ensures At(Apply(After(u, rest), Claim(x)), x, Duplicate(id))
    {
      BlockedClaimIsADuplicate(After(u, rest), x, key, id);
    }
    var v := Apply(After(u, rest), Expire(key));
    var more := FreshDeliveryPublishes(v, other, key);
    assert Runs(v, more);
  }

  /** A delivery answered as a duplicate names another delivery of the same endpoint and key. */
  lemma DuplicatesNameAnEarlierDelivery(steps: seq<Step>, id: EventId)
    requires Runs(INITIAL, steps) && SafeRun(INITIAL, steps)
    requires id in After(INITIAL, steps).deliveries && After(INITIAL, steps).deliveries[id].stage.Duplicate?
    ensures
      var s := After(INITIAL, steps);
      var original := s.deliveries[id].stage.original;
      original != id && original in s.deliveries && s.deliveries[original].key == s.deliveries[id].key
  {
    SafeRunKeepsInv(INITIAL, steps);
    var s := After(INITIAL, steps);
    assert Guards(s, id, s.deliveries[id]);
  }

  /** The steps of one call of the durable store's claim. */
  function ClaimSteps(s: State, id: EventId, lookupFails: bool, reseeds: bool): seq<Step>
    requires id in s.deliveries
  {
    var key := s.deliveries[id].key;
    if key in s.redis then [Claim(id)]
    else if lookupFails then [Claim(id)] + [LookUpFails(id)]
    else if key !in s.durable then [Claim(id)] + [LookUp(id)]
    else [Claim(id)] + ([LookUp(id)] + [if reseeds then Reseed(id) else ReseedFails(id)])
  }

  function AnswerOf(s: State, key: Key, lookupFails: bool): LookupAnswer {
    if lookupFails then LookupFailed else if key in s.durable then Known(s.durable[key]) else Unknown
  }

  /** Run without interruption, these steps do to Redis and to the delivery exactly what the store's claim does. */
  lemma ClaimStepsAreTheClaim(s: State, id: EventId, lookupFails: bool, reseeds: bool)
    requires At(s, id, Arrived)
    requires forall key :: key in s.durable ==> s.durable[key] != ""
    ensures Runs(s, ClaimSteps(s, id, lookupFails, reseeds))
    ensures
      var key, t := s.deliveries[id].key, After(s, ClaimSteps(s, id, lookupFails, reseeds));
      var (redis, r) := DurableClaim(s.redis, key, id, AnswerOf(s, key, lookupFails), reseeds);
      t == Move(s, id, if r.Claimed? then Cleared else Duplicate(r.eventId)).(redis := redis)
  {
    var key := s.deliveries[id].key;
    var s1 := Apply(s, Claim(id));
    if key !in s.redis {
      if lookupFails {
        Follow(s, Claim(id), [LookUpFails(id)]);
      } else if key !in s.durable {
        Follow(s, Claim(id), [LookUp(id)]);
      } else {
        var last := if reseeds then Reseed(id) else ReseedFails(id);
        Follow(s1, LookUp(id), [last]);
        Follow(s, Claim(id), [LookUp(id)] + [last]);
      }
    }
  }

  lemma Follow(s: State, e: Step, rest: seq<Step>)
    requires Enabled(s, e) && Runs(Apply(s, e), rest)
    ensures Runs(s, [e] + rest) && After(s, [e] + rest) == After(Apply(s, e), rest)
  {
    assert ([e] + rest)[1..] == rest;
  }

  // ---- what a reseed is for ----

  /** The claim names the event on durable record, and so does everyone who is about to reseed it. */
  ghost predicate NamesTheRecord(s: State, key: Key, original: EventId) {
    && key in s.durable && s.durable[key] == original && key in s.redis && s.redis[key] == original
    && At(s, original, Accepted)
    && forall x :: x in s.deliveries && s.deliveries[x].key == key && s.deliveries[x].stage.Recognised? ==>
         s.deliveries[x].stage.original == original
  }

  lemma StepKeepsName(s: State, e: Step, key: Key, original: EventId)
    requires NamesTheRecord(s, key, original) && Enabled(s, e) && e != Expire(key)
    ensures NamesTheRecord(Apply(s, e), key, original)
  {
  }

  lemma {:induction false} RunKeepsName(s: State, steps: seq<Step>, key: Key, original: EventId)
    requires NamesTheRecord(s, key, original) && Runs(s, steps) && Expire(key) !in steps
    ensures NamesTheRecord(After(s, steps), key, original)
    decreases |steps|
  {
    if steps != [] {
      StepKeepsName(s, steps[0], key, original);
      hide Apply, Enabled, NamesTheRecord;
      assert forall e :: e in steps[1..] ==> e in steps;
      RunKeepsName(Apply(s, steps[0]), steps[1..], key, original);
    }
  }

  /**
   * Once a delivery was recognised as a duplicate and its claim reseeded, every later claim of the key is answered with
   * the event on durable record, which was published, until the claim expires, whatever fails in between.
   */
  lemma ReseededClaimNamesTheRecord(before: seq<Step>, id: EventId, later: seq<Step>, other: EventId)
    requires Runs(INITIAL, before) && SafeRun(INITIAL, before)
    requires Enabled(After(INITIAL, before), Reseed(id))
    requires
      var s := After(INITIAL, before);
      && Runs(Apply(s, Reseed(id)), later) && Expire(s.deliveries[id].key) !in later
      && At(After(Apply(s, Reseed(id)), later), other, Arrived)
      && After(Apply(s, Reseed(id)), later).deliveries[other].key == s.deliveries[id].key
    ensures
      var s := After(INITIAL, before);
      var key, t := s.deliveries[id].key, After(Apply(s, Reseed(id)), later);
      && key in s.durable && (key, s.durable[key]) in s.published
      && At(Apply(t, Claim(other)), other, Duplicate(s.durable[key]))
  {
    var s := After(INITIAL, before);
    var key := s.deliveries[id].key;
    SafeRunKeepsInv(INITIAL, before);
    ReseedNamesTheRecord(s, id);
    RunKeepsName(Apply(s, Reseed(id)), later, key, s.durable[key]);
  }

  lemma ReseedNamesTheRecord(s: State, id: EventId)
    requires Inv(s) && Enabled(s, Reseed(id))
    ensures
      var key := s.deliveries[id].key;
      && key in s.durable && (key, s.durable[key]) in s.published
      && NamesTheRecord(Apply(s, Reseed(id)), key, s.durable[key])
  {
    var key := s.deliveries[id].key;
    forall x | x in s.deliveries
      ensures Guards(s, x, s.deliveries[x])
    {
    }
  }

  /** A reseed that fails leaves the claim as it is: if it is the delivery's own, the next duplicate is told its id. */
  lemma FailedReseedNamesNobody(before: seq<Step>, id: EventId, other: EventId)
    requires Runs(INITIAL, before) && SafeRun(INITIAL, before)
    requires Enabled(After(INITIAL, before), ReseedFails(id)) && At(After(INITIAL, before), other, Arrived)
    requires
      var s := After(INITIAL, before);
      && s.deliveries[other].key == s.deliveries[id].key
      && s.deliveries[id].key in s.redis && s.redis[s.deliveries[id].key] == id
    ensures
      var s := After(INITIAL, before);
      var key, t := s.deliveries[id].key, Apply(s, ReseedFails(id));
      && At(Apply(t, Claim(other)), other, Duplicate(id)) && (key, id) !in s.published
  {
    var s := After(INITIAL, before);
    SafeRunKeepsInv(INITIAL, before);
    assert Guards(s, id, s.deliveries[id]);
    assert other != id;
  }

  // ---- what each step is for ----

  /** The stages a delivery goes through, and how it can go on from each. */
  predicate GoesOn(before: Stage, after: Stage) {
    match before
    case Arrived => after.Holding? || after.Duplicate? || after.Refused?
    case Holding => after.Recognised? || after.Cleared?
    case Recognised(original) => after == Duplicate(original)
    case Cleared => after.Accepted? || after.Rejected?
    case Rejected => after.Refused?
    case Accepted => false
    case Duplicate(_) => false
    case Refused => false
  }

  /** The delivery a step takes on by one stage; the others belong to the worker, to Redis, or to no delivery yet. */
  function Mover(e: Step): Option<EventId> {
    match e
    case Arrive(_, _) => None
    case Record(_) => None
    case Expire(_) => None
    case Claim(id) => Some(id)
    case ClaimFails(id) => Some(id)
    case LookUp(id) => Some(id)
    case LookUpFails(id) => Some(id)
    case Reseed(id) => Some(id)
    case ReseedFails(id) => Some(id)
    case Publish(id) => Some(id)
    case PublishFails(id) => Some(id)
    case Release(id) => Some(id)
    case ReleaseFails(id) => Some(id)
  }

  /**
   * Every step takes its delivery, and no other, from its stage to one that may follow it, and only a publish
   * publishes.
   */
  lemma StagesAreInOrder(s: State, e: Step, id: EventId)
    requires Enabled(s, e) && id in s.deliveries
    ensures
      var t := Apply(s, e);
      && id in t.deliveries && t.deliveries[id].key == s.deliveries[id].key
      && (if Mover(e) == Some(id) then GoesOn(s.deliveries[id].stage, t.deliveries[id].stage)
          else t.deliveries[id] == s.deliveries[id])
      && (Mover(e) == Some(id) && t.deliveries[id].stage.Accepted? ==>
            t.published == s.published + [(s.deliveries[id].key, id)])
      && (Mover(e) == Some(id) && !t.deliveries[id].stage.Accepted? ==> t.published == s.published)
  {
  }

  lemma {:induction false} RecordStays(s: State, steps: seq<Step>, key: Key)
    requires Runs(s, steps) && key in s.durable
    ensures key in After(s, steps).durable && After(s, steps).durable[key] == s.durable[key]
    decreases |steps|
  {
    if steps != [] {
      RecordStays(Apply(s, steps[0]), steps[1..], key);
    }
  }

  /**
   * Once a published event is on durable record, it is for good: in every later run, whatever expires, a lookup that
   * does not fail recognises the key as that of an event that was published.
   */
  lemma RecordedEventIsRecognised(before: seq<Step>, id: EventId, later: seq<Step>, other: EventId)
    requires Runs(INITIAL, before) && SafeRun(INITIAL, before) && Enabled(After(INITIAL, before), Record(id))
    requires
      var s := After(INITIAL, before);
      && Runs(Apply(s, Record(id)), later) && At(After(Apply(s, Record(id)), later), other, Holding)
      && After(Apply(s, Record(id)), later).deliveries[other].key == s.deliveries[id].key
    ensures
      var s := After(INITIAL, before);
      var t := After(Apply(s, Record(id)), later);
      exists original :: (s.deliveries[id].key, original) in s.published &&
        At(Apply(t, LookUp(other)), other, Recognised(original))
  {
    var s := After(INITIAL, before);
    var key, recorded := s.deliveries[id].key, Apply(s, Record(id));
    SafeRunKeepsInv(INITIAL, before);
    assert (key, recorded.durable[key]) in s.published;
    RecordStays(recorded, later, key);
  }
}
