/** What the token bucket guarantees over whole runs, and when its cap is invisible (lib/rate-limiter.ts). */
module LimiterBounds {
  import opened Collections
  import opened Numbers
  import opened RateLimiter

  // ---------------------------------------------------------------------------
  // Buckets that answer alike
  // ---------------------------------------------------------------------------

  /** No caller at `since` or later can tell the two buckets apart. */
  ghost predicate Similar(cfg: Config, a: Option<Bucket>, b: Option<Bucket>, since: real) {
    && (a.Some? ==> a.value.updatedAt <= since)
    && (b.Some? ==> b.value.updatedAt <= since)
    && forall now :: now >= since ==> Level(cfg, a, now) == Level(cfg, b, now)
  }

  lemma Distribute(r: real, a: real, b: real)
    ensures (a + b) * r == a * r + b * r
    ensures (a - b) * r == a * r - b * r
    ensures r * a == a * r
  {
  }

  lemma ProductNonNegative(r: real, a: real)
    requires r >= 0.0 && a >= 0.0
    ensures a * r >= 0.0
  {
  }

  /** A refill may be split at any instant. */
  lemma SplitRefill(cfg: Config, b: Option<Bucket>, at: real)
    requires cfg.Valid()
    requires b.Some? ==> b.value.updatedAt <= at
    ensures Similar(cfg, Some(Bucket(Level(cfg, b, at), at)), b, at)
  {
  }

  lemma ReleaseAddsOne(cfg: Config, b: Bucket, now: real)
    requires cfg.Valid() && b.updatedAt <= now
    ensures Level(cfg, Some(Returned(cfg, b)), now) == MinReal(cfg.burst, Level(cfg, Some(b), now) + 1.0)
  {
    ProductNonNegative(cfg.rate, now - b.updatedAt);
  }

  /** A refused reservation consumes nothing: the bucket answers as before, whoever asks next. */
  lemma RefusalIsInvisible(cfg: Config, b: Option<Bucket>, now: real, maxWait: real)
    requires cfg.Valid() && (b.Some? ==> b.value.updatedAt <= now)
    requires Take(cfg, Level(cfg, b, now), now, maxWait).1.Refused?
    ensures Similar(cfg, Some(Take(cfg, Level(cfg, b, now), now, maxWait).0), b, now)
  {
    SplitRefill(cfg, b, now);
  }

  /** Releasing a granted reservation before anything else touches the bucket undoes it, at any later time. */
  lemma ReleaseUndoes(cfg: Config, b: Option<Bucket>, now: real, maxWait: real)
    requires cfg.Valid() && (b.Some? ==> b.value.updatedAt <= now)
    requires Take(cfg, Level(cfg, b, now), now, maxWait).1.Granted?
    ensures Similar(cfg, Some(Returned(cfg, Take(cfg, Level(cfg, b, now), now, maxWait).0)), b, now)
  {
  }

  /** Releasing into a bucket that has filled up again gives nobody an extra token. */
  lemma ReleaseOnFullBucket(cfg: Config, b: Bucket, now: real)
    requires cfg.Valid() && b.updatedAt <= now && Idle(cfg, b, now)
    ensures Similar(cfg, Some(Returned(cfg, b)), Some(b), now)
    ensures Similar(cfg, Some(b), None, now)
  {
    forall later | later >= now
      ensures Level(cfg, Some(b), later) == cfg.burst
      ensures Level(cfg, Some(Returned(cfg, b)), later) == Level(cfg, Some(b), later)
    {
      ProductNonNegative(cfg.rate, later - now);
      Distribute(cfg.rate, later - now, now - b.updatedAt);
      assert later - b.updatedAt == (later - now) + (now - b.updatedAt);
      ReleaseAddsOne(cfg, b, later);
    }
  }

  // ---------------------------------------------------------------------------
  // How long a reservation waits
  // ---------------------------------------------------------------------------

  /** Tokens that come in during `ms` milliseconds. */
  function Earned(cfg: Config, ms: real): real {
    cfg.rate * ms
  }

  /** `n` is the least number of whole milliseconds after which a bucket with `level` tokens holds one. */
  ghost predicate LeastWait(cfg: Config, level: real, n: int) {
    && n >= 0 && level + Earned(cfg, n as real) >= 1.0
    && (n > 0 ==> level + Earned(cfg, (n - 1) as real) < 1.0)
  }

  lemma EarnedGrows(cfg: Config, a: real, b: real)
    requires cfg.Valid()
    ensures Earned(cfg, a) < Earned(cfg, b) <==> a < b
  {
    Distribute(cfg.rate, b, a);
    Distribute(cfg.rate, a, b);
    if a < b {
      assert (b - a) * cfg.rate > 0.0;
    } else {
      ProductNonNegative(cfg.rate, a - b);
    }
  }

  lemma WaitEarns(cfg: Config, after: real)
    requires cfg.Valid()
    ensures WaitFor(cfg, after) >= 0.0 && Earned(cfg, WaitFor(cfg, after)) == if after >= 0.0 then 0.0 else -after
  {
  }

  /** A reservation waits the least time that is enough, and is refused if and only if that is too long. */
  lemma WaitIsLeast(cfg: Config, level: real, now: real, maxWait: int)
    requires cfg.Valid()
    ensures
      var n := Ceil(WaitFor(cfg, level - 1.0));
      && LeastWait(cfg, level, n)
      && Take(cfg, level, now, maxWait as real).1 == if n <= maxWait then Granted(n) else Refused(n)
  {
    var wait := WaitFor(cfg, level - 1.0);
    var n := Ceil(wait);
    WaitEarns(cfg, level - 1.0);
    hide Earned, WaitFor;
    EarnedGrows(cfg, n as real, wait);
    EarnedGrows(cfg, (n - 1) as real, wait);
  }

  // ---------------------------------------------------------------------------
  // Runs
  // ---------------------------------------------------------------------------

  datatype Event = ReserveAt(key: string, now: real, maxWait: real) | ReleaseOf(key: string)

  ghost predicate Clocked(evs: seq<Event>, since: real) {
    evs == [] ||
    match evs[0]
    case ReserveAt(_, now, _) => since <= now && Clocked(evs[1..], now)
    case ReleaseOf(_) => Clocked(evs[1..], since)
  }

  function Apply(cfg: Config, m: Buckets, e: Event): Buckets
    requires cfg.Valid()
  {
    match e
    case ReserveAt(key, now, maxWait) => Reserved(cfg, m, key, now, maxWait).0
    case ReleaseOf(key) => Released(cfg, m, key)
  }

  /** The answers `key` gets from the capped limiter. */
  function Answers(cfg: Config, m: Buckets, evs: seq<Event>, key: string): seq<Reservation>
    requires cfg.Valid()
    decreases |evs|
  {
    if evs == [] then []
    else
      (if evs[0].ReserveAt? && evs[0].key == key
       then [Reserved(cfg, m, key, evs[0].now, evs[0].maxWait).1] else [])
      + Answers(cfg, Apply(cfg, m, evs[0]), evs[1..], key)
  }

  function ReturnedTo(cfg: Config, b: Option<Bucket>): Option<Bucket> {
    if b.Some? then Some(Returned(cfg, b.value)) else None
  }

  /** What one event does to a bucket nobody ever evicts. */
  function ApplyAlone(cfg: Config, b: Option<Bucket>, e: Event, key: string): Option<Bucket>
    requires cfg.Valid()
  {
    if e.key != key then b
    else
      match e
      case ReserveAt(_, now, maxWait) => Some(Take(cfg, Level(cfg, b, now), now, maxWait).0)
      case ReleaseOf(_) => ReturnedTo(cfg, b)
  }

  /** The answers `key` gets from a limiter that never evicts. */
  function UncappedAnswers(cfg: Config, b: Option<Bucket>, evs: seq<Event>, key: string): seq<Reservation>
    requires cfg.Valid()
    decreases |evs|
  {
    if evs == [] then []
    else
      (if evs[0].ReserveAt? && evs[0].key == key
       then [Take(cfg, Level(cfg, b, evs[0].now), evs[0].now, evs[0].maxWait).1] else [])
      + UncappedAnswers(cfg, ApplyAlone(cfg, b, evs[0], key), evs[1..], key)
  }

  /** Making room for `e` does not drop a bucket of `key` that is still refilling. */
  ghost predicate Spares(cfg: Config, m: Buckets, e: Event, key: string) {
    (e.ReserveAt? && m.Get(key).Some? && !Idle(cfg, m.Get(key).value, e.now)) ==>
      MakeRoom(cfg, m, e.key, e.now).Get(key).Some?
  }

  /** Along the whole run only the idle sweep ever frees the bucket of `key`. */
  ghost predicate NeverForced(cfg: Config, m: Buckets, evs: seq<Event>, key: string)
    requires cfg.Valid()
    decreases |evs|
  {
    evs == [] || (Spares(cfg, m, evs[0], key) && NeverForced(cfg, Apply(cfg, m, evs[0]), evs[1..], key))
  }

  lemma MakeRoomKeepsOthers(cfg: Config, m: Buckets, e: Event, key: string)
    requires cfg.Valid() && m.Valid() && e.ReserveAt?
    requires Spares(cfg, m, e, key)
    requires m.Get(key).Some? ==> m.Get(key).value.updatedAt <= e.now
    ensures MakeRoom(cfg, m, e.key, e.now).Valid()
    ensures Similar(cfg, MakeRoom(cfg, m, e.key, e.now).Get(key), m.Get(key), e.now)
    ensures m.Get(key).None? ==> MakeRoom(cfg, m, e.key, e.now).Get(key).None?
  {
    SweepRemovesIdle(cfg, m, m.keys, e.now, key);
    if m.Get(key).Some? && Idle(cfg, m.Get(key).value, e.now) {
      ReleaseOnFullBucket(cfg, m.Get(key).value, e.now);
    }
  }

  lemma SimilarSteps(cfg: Config, m: Buckets, b: Option<Bucket>, e: Event, key: string, since: real)
    requires cfg.Valid() && m.Valid()
    requires Similar(cfg, m.Get(key), b, since)
    requires Spares(cfg, m, e, key)
    requires e.ReserveAt? ==> since <= e.now
    ensures Apply(cfg, m, e).Valid()
    ensures Similar(cfg, Apply(cfg, m, e).Get(key), ApplyAlone(cfg, b, e, key), if e.ReserveAt? then e.now else since)
    ensures e.ReserveAt? && e.key == key ==>
              Reserved(cfg, m, key, e.now, e.maxWait).1 == Take(cfg, Level(cfg, b, e.now), e.now, e.maxWait).1
  {
    match e
    case ReserveAt(k, now, maxWait) =>
      MakeRoomKeepsOthers(cfg, m, e, key);
    case ReleaseOf(k) =>
      if k == key {
        SimilarAfterRelease(cfg, m.Get(key), b, since);
      }
  }

  lemma SimilarAfterRelease(cfg: Config, a: Option<Bucket>, b: Option<Bucket>, since: real)
    requires cfg.Valid() && Similar(cfg, a, b, since)
    ensures Similar(cfg, ReturnedTo(cfg, a), ReturnedTo(cfg, b), since)
  {
    forall now | now >= since
      ensures Level(cfg, ReturnedTo(cfg, a), now) == Level(cfg, ReturnedTo(cfg, b), now)
    {
      if a.Some? { ReleaseAddsOne(cfg, a.value, now); }
      if b.Some? { ReleaseAddsOne(cfg, b.value, now); }
      assert Level(cfg, a, now) == Level(cfg, b, now);
    }
  }

  /** The capped limiter refines the uncapped one, key by key, while only the idle sweep frees room. */
  lemma {:induction false} CappedRefinesUncapped(
      cfg: Config, m: Buckets, b: Option<Bucket>, evs: seq<Event>, key: string, since: real)
    requires cfg.Valid() && m.Valid()
    requires Similar(cfg, m.Get(key), b, since)
    requires Clocked(evs, since)
    requires NeverForced(cfg, m, evs, key)
    ensures Answers(cfg, m, evs, key) == UncappedAnswers(cfg, b, evs, key)
    decreases |evs|
  {
    if evs != [] {
      var e := evs[0];
      SimilarSteps(cfg, m, b, e, key, since);
      CappedRefinesUncapped(cfg, Apply(cfg, m, e), ApplyAlone(cfg, b, e, key), evs[1..], key,
                            if e.ReserveAt? then e.now else since);
    }
  }

  /** Making room is invisible to a key exactly when it spares the key; dropping a busy bucket refills it. */
  lemma EvictionInvisibleIffSpared(cfg: Config, m: Buckets, e: Event, key: string)
    requires cfg.Valid() && m.Valid() && e.ReserveAt?
    requires m.Get(key).Some? ==> m.Get(key).value.updatedAt <= e.now
    ensures Spares(cfg, m, e, key) <==> Similar(cfg, MakeRoom(cfg, m, e.key, e.now).Get(key), m.Get(key), e.now)
    ensures !Spares(cfg, m, e, key) ==>
              Level(cfg, m.Get(key), e.now) < Level(cfg, MakeRoom(cfg, m, e.key, e.now).Get(key), e.now) == cfg.burst
  {
    if Spares(cfg, m, e, key) {
      MakeRoomKeepsOthers(cfg, m, e, key);
    } else {
      assert Level(cfg, m.Get(key), e.now) < cfg.burst == Level(cfg, None, e.now);
    }
  }

  function Cap(cfg: Config): nat { if cfg.maxKeys == 0 then 1 else cfg.maxKeys }

  function AfterAll(cfg: Config, m: Buckets, evs: seq<Event>): Buckets
    requires cfg.Valid()
    decreases |evs|
  {
    if evs == [] then m else AfterAll(cfg, Apply(cfg, m, evs[0]), evs[1..])
  }

  /** The number of tracked keys never exceeds the cap (or one, for a cap of zero). */
  lemma {:induction false} KeysStayCapped(cfg: Config, m: Buckets, evs: seq<Event>)
    requires cfg.Valid() && m.Valid() && |m.keys| <= Cap(cfg)
    ensures AfterAll(cfg, m, evs).Valid() && |AfterAll(cfg, m, evs).keys| <= Cap(cfg)
    decreases |evs|
  {
    if evs != [] {
      OneEventKeepsValid(cfg, m, evs[0]);
      KeysStayCapped(cfg, Apply(cfg, m, evs[0]), evs[1..]);
    }
  }

  lemma OneEventKeepsValid(cfg: Config, m: Buckets, e: Event)
    requires cfg.Valid() && m.Valid()
    ensures Apply(cfg, m, e).Valid() && (|m.keys| <= Cap(cfg) ==> |Apply(cfg, m, e).keys| <= Cap(cfg))
  {
    if e.ReserveAt? {
      SweepRemovesIdle(cfg, m, m.keys, e.now, e.key);
    }
  }

  ghost predicate AllBusy(cfg: Config, m: Buckets, now: real) {
    forall k :: k in m.vals ==> !Idle(cfg, m.vals[k], now)
  }

  lemma {:induction false} SweepOfBusyBuckets(cfg: Config, m: Buckets, keys: seq<string>, now: real)
    requires AllBusy(cfg, m, now)
    ensures Sweep(cfg, m, keys, now) == m
    decreases keys
  {
    if keys != [] {
      SweepOfBusyBuckets(cfg, m, keys[1..], now);
    }
  }

  lemma {:induction false} SweepFreesPlaces(cfg: Config, m: Buckets, keys: seq<string>, now: real, idle: string)
    requires m.Valid() && idle in keys && idle in m.vals && Idle(cfg, m.vals[idle], now)
    ensures |Sweep(cfg, m, keys, now).keys| < |m.keys|
    decreases keys
  {
    var k := keys[0];
    if k in m.vals && Idle(cfg, m.vals[k], now) {
      SweepRemovesIdle(cfg, m.Delete(k), keys[1..], now, idle);
    } else {
      SweepFreesPlaces(cfg, m, keys[1..], now, idle);
    }
  }

  /** Who is forced out: the busy bucket of the oldest key, by a new key, when all places are taken and none is idle. */
  lemma ForcedOutIff(cfg: Config, m: Buckets, e: Event, key: string)
    requires cfg.Valid() && m.Valid() && |m.keys| <= Cap(cfg) && e.ReserveAt?
    ensures
      !Spares(cfg, m, e, key) <==>
      && e.key !in m.vals && |m.keys| == Cap(cfg) && AllBusy(cfg, m, e.now)
      && m.keys[0] == key
  {
    SweepRemovesIdle(cfg, m, m.keys, e.now, key);
    if AllBusy(cfg, m, e.now) {
      SweepOfBusyBuckets(cfg, m, m.keys, e.now);
    } else {
      var idle :| idle in m.vals && Idle(cfg, m.vals[idle], e.now);
      SweepFreesPlaces(cfg, m, m.keys, e.now, idle);
    }
    hide Sweep, Idle;
    assert |m.keys| > 0 ==> m.keys[0] in m.keys;
  }

  // ---------------------------------------------------------------------------
  // The rate bound
  // ---------------------------------------------------------------------------

  /**
   * An admitted request: when it may start, and its virtual position in the token stream
   * (tokens generated so far, minus the balance it leaves).
   */
  datatype Send = Send(at: real, position: real)

  /** A release of `key` only ever undoes the reservation just before it. */
  ghost predicate OnlyUndoes(cfg: Config, m: Buckets, evs: seq<Event>, key: string)
    requires cfg.Valid()
    decreases |evs|
  {
    if evs == [] then true
    else if Undone(cfg, m, evs, key) then OnlyUndoes(cfg, Apply(cfg, Apply(cfg, m, evs[0]), evs[1]), evs[2..], key)
    else evs[0] != ReleaseOf(key) && OnlyUndoes(cfg, Apply(cfg, m, evs[0]), evs[1..], key)
  }

  ghost predicate Undone(cfg: Config, m: Buckets, evs: seq<Event>, key: string)
    requires cfg.Valid()
  {
    && |evs| >= 2 && evs[0].ReserveAt? && evs[0].key == key && evs[1] == ReleaseOf(key)
    && Reserved(cfg, m, key, evs[0].now, evs[0].maxWait).1.Granted?
  }

  /** Where a request that finds `level` tokens stands in the token stream. */
  ghost function PositionOf(cfg: Config, level: real, now: real): real {
    now * cfg.rate - (level - 1.0)
  }

  ghost function SendOf(cfg: Config, level: real, now: real, maxWait: real): Send
    requires cfg.Valid() && Take(cfg, level, now, maxWait).1.Granted?
  {
    Send(now + Take(cfg, level, now, maxWait).1.waitMs as real, PositionOf(cfg, level, now))
  }

  /** The requests of `key` that were admitted and not undone. */
  ghost function Sends(cfg: Config, m: Buckets, evs: seq<Event>, key: string): seq<Send>
    requires cfg.Valid()
    decreases |evs|
  {
    if evs == [] then []
    else if Undone(cfg, m, evs, key) then Sends(cfg, Apply(cfg, Apply(cfg, m, evs[0]), evs[1]), evs[2..], key)
    else
      var e := evs[0];
      (if e.ReserveAt? && e.key == key && Reserved(cfg, m, key, e.now, e.maxWait).1.Granted?
       then [SendOf(cfg, Level(cfg, MakeRoom(cfg, m, key, e.now).Get(key), e.now), e.now, e.maxWait)] else [])
      + Sends(cfg, Apply(cfg, m, e), evs[1..], key)
  }

  /** From `since` on, the bucket has no more tokens than the stream produced beyond position `u`. */
  ghost predicate Spent(cfg: Config, b: Option<Bucket>, since: real, u: real) {
    forall now :: now >= since ==> Level(cfg, b, now) <= now * cfg.rate - u
  }

  /** Positions after `u` grow by at least one token per request. */
  ghost predicate Spaced(s: seq<Send>, u: real) {
    s == [] || (s[0].position >= u + 1.0 && Spaced(s[1..], s[0].position))
  }

  /** A request starts no earlier than its position allows, and late by at most a burst and `slack` milliseconds. */
  ghost predicate OnTime(cfg: Config, send: Send, slack: real) {
    && send.position <= send.at * cfg.rate
    && send.position >= (send.at - slack) * cfg.rate - (cfg.burst - 1.0)
  }

  ghost predicate AllOnTime(cfg: Config, s: seq<Send>, slack: real) {
    forall i :: 0 <= i < |s| ==> OnTime(cfg, s[i], slack)
  }

  ghost function StartsIn(s: seq<Send>, lo: real, hi: real): nat {
    if s == [] then 0 else (if lo <= s[0].at <= hi then 1 else 0) + StartsIn(s[1..], lo, hi)
  }

  /** Spaced requests whose positions in a window lie between two bounds are at most as many as the tokens between. */
  lemma {:induction false} CountSpaced(s: seq<Send>, lo: real, hi: real, first: real, last: real, u: real)
    requires Spaced(s, u)
    requires forall i :: 0 <= i < |s| && lo <= s[i].at <= hi ==> first <= s[i].position <= last
    ensures StartsIn(s, lo, hi) as real <= MaxReal(0.0, last - MaxReal(first, u + 1.0) + 1.0)
  {
    if s != [] {
      forall i | 0 <= i < |s[1..]| && lo <= s[1..][i].at <= hi
        ensures first <= s[1..][i].position <= last
      {
        assert s[1..][i] == s[i + 1];
      }
      CountSpaced(s[1..], lo, hi, first, last, s[0].position);
    }
  }

  lemma LevelAfterTake(cfg: Config, b: Option<Bucket>, now: real, u: real, t: real)
    requires cfg.Valid() && Spent(cfg, b, now, u) && t >= now
    requires b.Some? ==> b.value.updatedAt <= now
    ensures var level := Level(cfg, b, now);
            && Level(cfg, Some(Bucket(level, now)), t) <= t * cfg.rate - u
            && Level(cfg, Some(Bucket(level - 1.0, now)), t) <= t * cfg.rate - (now * cfg.rate - (level - 1.0))
  {
  }

  lemma GrantAdvances(cfg: Config, b: Option<Bucket>, now: real, maxWait: real, u: real)
    requires cfg.Valid() && Spent(cfg, b, now, u)
    requires b.Some? ==> b.value.updatedAt <= now
    ensures var (b', answer) := Take(cfg, Level(cfg, b, now), now, maxWait);
            if answer.Refused? then Spent(cfg, Some(b'), now, u)
            else
              var send := SendOf(cfg, Level(cfg, b, now), now, maxWait);
              && send.position >= u + 1.0
              && Spent(cfg, Some(b'), now, send.position)
              && OnTime(cfg, send, 1.0)
              && Spent(cfg, Some(Returned(cfg, b')), now, u)
  {
    var level := Level(cfg, b, now);
    var (b', answer) := Take(cfg, level, now, maxWait);
    var full, taken := Some(Bucket(level, now)), Some(Bucket(level - 1.0, now));
    forall t | t >= now
      ensures Level(cfg, full, t) <= t * cfg.rate - u
    {
      LevelAfterTake(cfg, b, now, u, t);
    }
    if answer.Granted? {
      var position := SendOf(cfg, level, now, maxWait).position;
      forall t | t >= now
        ensures Level(cfg, taken, t) <= t * cfg.rate - position
      {
        LevelAfterTake(cfg, b, now, u, t);
      }
      ProductNonNegative(cfg.rate, 0.0);
      assert level <= cfg.burst by { LevelCapped(cfg, b, now); }
      assert Returned(cfg, b') == Bucket(level, now);
      StartTimes(cfg, level, now, maxWait);
    }
  }

  lemma LevelCapped(cfg: Config, b: Option<Bucket>, now: real)
    ensures Level(cfg, b, now) <= cfg.burst
  {
  }

  lemma StartTimes(cfg: Config, level: real, now: real, maxWait: real)
    requires cfg.Valid() && level <= cfg.burst
    requires Take(cfg, level, now, maxWait).1.Granted?
    ensures OnTime(cfg, SendOf(cfg, level, now, maxWait), 1.0)
  {
    var after := level - 1.0;
    var wait := if after >= 0.0 then 0.0 else -after / cfg.rate;
    var late := Ceil(wait) as real;
    assert after < 0.0 ==> wait * cfg.rate == -after;
    ProductNonNegative(cfg.rate, late - wait);
    ProductNonNegative(cfg.rate, 1.0 - (late - wait));
    Distribute(cfg.rate, late, wait);
    Distribute(cfg.rate, now, late);
    Distribute(cfg.rate, now + late, 1.0);
    Distribute(cfg.rate, 1.0, late - wait);
  }

  /** Prepending one request keeps the order and the start times. */
  lemma Prepend(cfg: Config, send: Send, rest: seq<Send>, u: real, slack: real)
    requires send.position >= u + 1.0 && OnTime(cfg, send, slack)
    requires Spaced(rest, send.position) && AllOnTime(cfg, rest, slack)
    ensures Spaced([send] + rest, u) && AllOnTime(cfg, [send] + rest, slack)
  {
    assert ([send] + rest)[1..] == rest;
  }

  lemma {:induction false} SendsAreSpaced(cfg: Config, m: Buckets, evs: seq<Event>, key: string, since: real, u: real)
    requires cfg.Valid() && m.Valid()
    requires m.Get(key).Some? ==> m.Get(key).value.updatedAt <= since
    requires Spent(cfg, m.Get(key), since, u)
    requires Clocked(evs, since)
    requires NeverForced(cfg, m, evs, key) && OnlyUndoes(cfg, m, evs, key)
    ensures Spaced(Sends(cfg, m, evs, key), u) && AllOnTime(cfg, Sends(cfg, m, evs, key), 1.0)
    decreases |evs|
  {
    if evs != [] {
      var e, rest := evs[0], evs[1..];
      var m' := Apply(cfg, m, e);
      if e.ReleaseOf? {
        assert Sends(cfg, m, evs, key) == Sends(cfg, m', rest, key);
        SendsAreSpaced(cfg, m', rest, key, since, u);
      } else {
        MakeRoomKeepsOthers(cfg, m, e, key);
        var b := MakeRoom(cfg, m, e.key, e.now).Get(key);
        assert Spent(cfg, b, e.now, u);
        if e.key != key {
          assert Sends(cfg, m, evs, key) == Sends(cfg, m', rest, key);
          SendsAreSpaced(cfg, m', rest, key, e.now, u);
        } else {
          GrantAdvances(cfg, b, e.now, e.maxWait, u);
          OwnReservation(cfg, m, evs, key, b, u);
        }
      }
    }
  }

  /** The step of SendsAreSpaced where the key itself reserves. */
  lemma {:induction false} OwnReservation(cfg: Config, m: Buckets, evs: seq<Event>, key: string, b: Option<Bucket>,
                                          u: real)
    requires cfg.Valid() && m.Valid() && evs != [] && evs[0].ReserveAt? && evs[0].key == key
    requires NeverForced(cfg, m, evs, key) && OnlyUndoes(cfg, m, evs, key) && Clocked(evs[1..], evs[0].now)
    requires MakeRoom(cfg, m, key, evs[0].now).Valid() && b == MakeRoom(cfg, m, key, evs[0].now).Get(key)
    requires var (b', answer) := Take(cfg, Level(cfg, b, evs[0].now), evs[0].now, evs[0].maxWait);
             if answer.Refused? then Spent(cfg, Some(b'), evs[0].now, u)
             else
               var send := SendOf(cfg, Level(cfg, b, evs[0].now), evs[0].now, evs[0].maxWait);
               && send.position >= u + 1.0 && OnTime(cfg, send, 1.0)
               && Spent(cfg, Some(b'), evs[0].now, send.position)
               && Spent(cfg, Some(Returned(cfg, b')), evs[0].now, u)
    ensures Spaced(Sends(cfg, m, evs, key), u) && AllOnTime(cfg, Sends(cfg, m, evs, key), 1.0)
    decreases |evs|, 0
  {
    var e, rest := evs[0], evs[1..];
    var m' := Apply(cfg, m, e);
    var (b', answer) := Take(cfg, Level(cfg, b, e.now), e.now, e.maxWait);
    assert m'.Valid() && m'.Get(key) == Some(b');
    if Undone(cfg, m, evs, key) {
      assert rest[1..] == evs[2..] && rest[0] == evs[1] == ReleaseOf(key);
      SendsAreSpaced(cfg, Apply(cfg, m', evs[1]), evs[2..], key, e.now, u);
    } else if answer.Refused? {
      assert Sends(cfg, m, evs, key) == Sends(cfg, m', rest, key);
      SendsAreSpaced(cfg, m', rest, key, e.now, u);
    } else {
      var send := SendOf(cfg, Level(cfg, b, e.now), e.now, e.maxWait);
      SendsAreSpaced(cfg, m', rest, key, e.now, send.position);
      Prepend(cfg, send, Sends(cfg, m', rest, key), u, 1.0);
    }
  }

  lemma FullBucketSpent(cfg: Config, b: Option<Bucket>, since: real)
    requires cfg.Valid()
    ensures Spent(cfg, b, since, since * cfg.rate - cfg.burst)
  {
  }

  /**
   * In every window of W milliseconds at most burst + rate * (W + 1) admitted requests of a key start,
   * whatever the other keys do.
   */
  lemma RateBound(cfg: Config, m: Buckets, evs: seq<Event>, key: string, since: real, lo: real, width: real)
    requires cfg.Valid() && m.Valid() && width >= 0.0
    requires m.Get(key).Some? ==> m.Get(key).value.updatedAt <= since
    requires Clocked(evs, since)
    requires NeverForced(cfg, m, evs, key) && OnlyUndoes(cfg, m, evs, key)
    ensures StartsIn(Sends(cfg, m, evs, key), lo, lo + width) as real <= cfg.burst + cfg.rate * (width + 1.0)
  {
    var u := since * cfg.rate - cfg.burst;
    FullBucketSpent(cfg, m.Get(key), since);
    SendsAreSpaced(cfg, m, evs, key, since, u);
    SpacedBound(cfg, Sends(cfg, m, evs, key), lo, width, 1.0, u);
  }

  lemma SpacedBound(cfg: Config, s: seq<Send>, lo: real, width: real, slack: real, u: real)
    requires cfg.Valid() && width >= 0.0 && slack >= 0.0
    requires Spaced(s, u) && AllOnTime(cfg, s, slack)
    ensures StartsIn(s, lo, lo + width) as real <= cfg.burst + cfg.rate * (width + slack)
  {
    assert cfg.rate * (width + slack) == Earned(cfg, width + slack);
    var hi := lo + width;
    var first, last := Earned(cfg, lo - slack) - (cfg.burst - 1.0), Earned(cfg, hi);
    hide Earned, OnTime;
    forall i | 0 <= i < |s| && lo <= s[i].at <= hi
      ensures first <= s[i].position <= last
    {
      InWindow(cfg, s[i], lo, hi, slack);
    }
    CountSpaced(s, lo, hi, first, last, u);
    WindowTokens(cfg, lo, width, slack);
  }

  /** A window and the time before it earn together what each earns. */
  lemma WindowTokens(cfg: Config, lo: real, width: real, slack: real)
    requires cfg.Valid() && width >= 0.0 && slack >= 0.0
    ensures Earned(cfg, lo + width) == Earned(cfg, lo - slack) + Earned(cfg, width + slack)
    ensures Earned(cfg, width + slack) >= 0.0
  {
  }

  lemma InWindow(cfg: Config, send: Send, lo: real, hi: real, slack: real)
    requires cfg.Valid() && lo <= send.at <= hi && OnTime(cfg, send, slack)
    ensures Earned(cfg, lo - slack) - (cfg.burst - 1.0) <= send.position <= Earned(cfg, hi)
  {
    EarnedGrows(cfg, send.at - slack, lo - slack);
    EarnedGrows(cfg, hi, send.at);
  }
}
