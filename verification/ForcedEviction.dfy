/** What becomes of the rate when a bucket that is still refilling is forced out (lib/rate-limiter.ts). */
module ForcedEviction {
  import opened Collections
  import opened RateLimiter
  import opened LimiterBounds

  /** Whatever follows `e`, if no later event forces out the bucket of `key`, admitted requests stay a token apart. */
  ghost predicate KeepsSpacing(cfg: Config, m: Buckets, e: Event, key: string)
    requires cfg.Valid() && e.ReserveAt?
  {
    forall u, rest ::
      Spent(cfg, m.Get(key), e.now, u) && SparedAfter(cfg, m, e, rest, key) ==>
        Spaced(Sends(cfg, m, [e] + rest, key), u)
  }

  ghost predicate SparedAfter(cfg: Config, m: Buckets, e: Event, rest: seq<Event>, key: string)
    requires cfg.Valid() && e.ReserveAt?
  {
    && Clocked(rest, e.now) && NeverForced(cfg, Apply(cfg, m, e), rest, key)
    && OnlyUndoes(cfg, m, [e] + rest, key)
  }

  /** The latest position a bucket can stand for. */
  ghost function Reached(cfg: Config, b: Option<Bucket>, now: real): real { now * cfg.rate - Level(cfg, b, now) }

  lemma SpentNow(cfg: Config, b: Option<Bucket>, now: real)
    requires cfg.Valid() && (b.Some? ==> b.value.updatedAt <= now)
    ensures Spent(cfg, b, now, Reached(cfg, b, now))
  {
    forall t | t >= now
      ensures Level(cfg, b, t) <= t * cfg.rate - (now * cfg.rate - Level(cfg, b, now))
    {
      Distribute(cfg.rate, t, now);
      ProductNonNegative(cfg.rate, t - now);
      if b.Some? {
        Distribute(cfg.rate, t - now, now - b.value.updatedAt);
        assert t - b.value.updatedAt == (t - now) + (now - b.value.updatedAt);
      }
    }
  }

  /** The request that finds a full bucket. */
  ghost function FirstSend(cfg: Config, now: real): Send { Send(now, now * cfg.rate - (cfg.burst - 1.0)) }

  /** A key that is not tracked starts with a full bucket: its next reservation is admitted at once. */
  lemma UntrackedIsAdmitted(cfg: Config, m: Buckets, key: string, now: real)
    requires cfg.Valid() && m.Valid() && m.Get(key).None?
    ensures var again := ReserveAt(key, now, 0.0);
            && Sends(cfg, m, [again], key) == [FirstSend(cfg, now)]
            && NeverForced(cfg, m, [again], key) && Clocked([again], now)
  {
    var again := ReserveAt(key, now, 0.0);
    if |m.keys| >= cfg.maxKeys {
      EvictedStaysUntracked(cfg, m, key, now);
    }
    assert MakeRoom(cfg, m, key, now).Get(key) == None;
    FullBucketAdmits(cfg, now);
    hide MakeRoom, Take, PositionOf, FirstSend;
    assert [again][1..] == [] && Sends(cfg, Apply(cfg, m, again), [], key) == [];
    assert Sends(cfg, m, [again], key) == [SendOf(cfg, cfg.burst, now, 0.0)] + [];
  }

  lemma FullBucketAdmits(cfg: Config, now: real)
    requires cfg.Valid()
    ensures Take(cfg, cfg.burst, now, 0.0).1 == Granted(0)
    ensures SendOf(cfg, cfg.burst, now, 0.0) == FirstSend(cfg, now)
  {
    assert Ceil(0.0) == 0;
  }

  /**
   * A reservation keeps the admitted requests of `key` a token apart, in every later run that spares the key, if and
   * only if it spares the key itself.
   */
  lemma SpacingIffSpared(cfg: Config, m: Buckets, e: Event, key: string)
    requires cfg.Valid() && m.Valid() && e.ReserveAt?
    requires m.Get(key).Some? ==> m.Get(key).value.updatedAt <= e.now
    ensures KeepsSpacing(cfg, m, e, key) <==> Spares(cfg, m, e, key)
  {
    if Spares(cfg, m, e, key) {
      forall u, rest | Spent(cfg, m.Get(key), e.now, u) && SparedAfter(cfg, m, e, rest, key)
        ensures Spaced(Sends(cfg, m, [e] + rest, key), u)
      {
        assert ([e] + rest)[1..] == rest;
        SendsAreSpaced(cfg, m, [e] + rest, key, e.now, u);
      }
    } else {
      ForcedOutIsEarly(cfg, m, e, key);
    }
  }

  lemma FullBucketIsEarly(cfg: Config, b: Option<Bucket>, now: real, s: seq<Send>)
    requires Level(cfg, b, now) < cfg.burst && s == [FirstSend(cfg, now)]
    ensures !Spaced(s, Reached(cfg, b, now))
  {
  }

  lemma ForcedOut(cfg: Config, m: Buckets, e: Event, key: string)
    requires cfg.Valid() && m.Valid() && e.ReserveAt? && !Spares(cfg, m, e, key)
    requires m.Get(key).value.updatedAt <= e.now
    ensures e.key != key && Apply(cfg, m, e).Valid() && Apply(cfg, m, e).Get(key) == None
    ensures Level(cfg, m.Get(key), e.now) < cfg.burst
  {
    EvictionInvisibleIffSpared(cfg, m, e, key);
    OneEventKeepsValid(cfg, m, e);
  }

  lemma ForcedOutIsEarly(cfg: Config, m: Buckets, e: Event, key: string)
    requires cfg.Valid() && m.Valid() && e.ReserveAt? && !Spares(cfg, m, e, key)
    requires m.Get(key).value.updatedAt <= e.now
    ensures !KeepsSpacing(cfg, m, e, key)
  {
    hide Reserved, MakeRoom, Level, Spent, Sends, OnlyUndoes, NeverForced, Clocked, Apply, Spaced, Reached, FirstSend;
    var again := ReserveAt(key, e.now, 0.0);
    ForcedOut(cfg, m, e, key);
    SpentNow(cfg, m.Get(key), e.now);
    UntrackedIsAdmitted(cfg, Apply(cfg, m, e), key, e.now);
    AnotherKeyFirst(cfg, m, e, again, key);
    FullBucketIsEarly(cfg, m.Get(key), e.now, Sends(cfg, m, [e] + [again], key));
    assert SparedAfter(cfg, m, e, [again], key);
  }

  lemma AnotherKeyFirst(cfg: Config, m: Buckets, e: Event, own: Event, key: string)
    requires cfg.Valid() && e.ReserveAt? && e.key != key && own.ReserveAt?
    ensures OnlyUndoes(cfg, m, [e] + [own], key)
    ensures Sends(cfg, m, [e] + [own], key) == Sends(cfg, Apply(cfg, m, e), [own], key)
  {
    hide Reserved, Apply;
    assert ([e] + [own])[1..] == [own] && [own][1..] == [];
    assert OnlyUndoes(cfg, Apply(cfg, m, e), [own], key);
    assert Sends(cfg, m, [e] + [own], key) == [] + Sends(cfg, Apply(cfg, m, e), [own], key);
  }

  // One key more than there are places, all taking turns at one instant: each forces out the one that comes next.

  function At(key: string): Event { ReserveAt(key, 0.0, 0.0) }

  /** The buckets of `keys` after one reservation each. */
  function JustUsed(cfg: Config, keys: seq<string>): Buckets {
    InsertionMap(keys, map k | k in keys :: Bucket(cfg.burst - 1.0, 0.0))
  }

  /** The last `n` of them. */
  function Latest(keys: seq<string>, n: nat): seq<string>
    requires n <= |keys|
  {
    keys[|keys| - n..]
  }

  lemma {:induction false} WithoutAbsent(keys: seq<string>, k: string)
    requires k !in keys
    ensures Without(keys, k) == keys
  {
    if keys != [] {
      WithoutAbsent(keys[1..], k);
    }
  }

  /** The oldest of the buckets leaves. */
  lemma OldestLeaves(cfg: Config, keys: seq<string>)
    requires NoDuplicates(keys) && keys != []
    ensures JustUsed(cfg, keys).Delete(keys[0]) == JustUsed(cfg, keys[1..])
  {
    assert keys[0] !in keys[1..];
    WithoutAbsent(keys[1..], keys[0]);
  }

  lemma PlaceIsMade(cfg: Config, keys: seq<string>, next: string)
    requires cfg.Valid() && NoDuplicates(keys) && |keys| <= Cap(cfg) && next !in keys
    ensures MakeRoom(cfg, JustUsed(cfg, keys), next, 0.0) ==
            JustUsed(cfg, if |keys| == Cap(cfg) then keys[1..] else keys)
  {
    SweepOfBusyBuckets(cfg, JustUsed(cfg, keys), keys, 0.0);
    if |keys| == Cap(cfg) {
      OldestLeaves(cfg, keys);
    }
    hide Sweep, Idle;
  }

  /** The keys that are tracked once `next` has had its turn. */
  function AfterTurn(cap: nat, keys: seq<string>, next: string): seq<string>
    requires cap > 0
  {
    (if |keys| == cap then keys[1..] else keys) + [next]
  }

  /** A key that is not tracked is admitted at once, whoever has to leave. */
  lemma OneTurn(cfg: Config, keys: seq<string>, next: string)
    requires cfg.Valid() && NoDuplicates(keys) && |keys| <= Cap(cfg) && next !in keys
    ensures
      && Reserved(cfg, JustUsed(cfg, keys), next, 0.0, 0.0) ==
         (JustUsed(cfg, AfterTurn(Cap(cfg), keys, next)), Granted(0))
      && MakeRoom(cfg, JustUsed(cfg, keys), next, 0.0).Get(next) == None
  {
    PlaceIsMade(cfg, keys, next);
    FullBucketAdmits(cfg, 0.0);
    hide MakeRoom;
    var left := if |keys| == Cap(cfg) then keys[1..] else keys;
    assert next !in left;
    assert Take(cfg, cfg.burst, 0.0, 0.0).0 == Bucket(cfg.burst - 1.0, 0.0);
    assert JustUsed(cfg, left).vals[next := Bucket(cfg.burst - 1.0, 0.0)] == JustUsed(cfg, left + [next]).vals;
  }

  /** One turn for each key, and so many rounds of that. */
  function Turns(keys: seq<string>): seq<Event> {
    if keys == [] then [] else [At(keys[0])] + Turns(keys[1..])
  }

  function Rounds(ring: seq<string>, n: nat): seq<Event> {
    if n == 0 then [] else Turns(ring) + Rounds(ring, n - 1)
  }

  /** One event of a run seen by a key: it is not undone by what follows. */
  lemma OneReservation(cfg: Config, m: Buckets, m': Buckets, own: Event, rest: seq<Event>, key: string)
    requires cfg.Valid() && own.ReserveAt? && m' == Apply(cfg, m, own)
    requires rest != [] ==> rest[0].ReserveAt?
    ensures Sends(cfg, m, [own] + rest, key) ==
            (if own.key == key && Reserved(cfg, m, key, own.now, own.maxWait).1.Granted?
             then [SendOf(cfg, Level(cfg, MakeRoom(cfg, m, key, own.now).Get(key), own.now), own.now, own.maxWait)]
               else [])
            + Sends(cfg, m', rest, key)
    ensures OnlyUndoes(cfg, m, [own] + rest, key) == OnlyUndoes(cfg, m', rest, key)
  {
    hide Reserved, MakeRoom, Level;
    assert ([own] + rest)[1..] == rest;
    assert !Undone(cfg, m, [own] + rest, key);
  }

  lemma NoEvents(cfg: Config, m: Buckets, key: string)
    requires cfg.Valid()
    ensures Sends(cfg, m, [], key) == [] && OnlyUndoes(cfg, m, [], key)
  {
  }

  ghost function Times(send: Send, n: nat): seq<Send> {
    if n == 0 then [] else [send] + Times(send, n - 1)
  }

  /** In the order of their turns: the first of `ring` comes next, and its last `n` keys are tracked. */
  lemma Rotated(cap: nat, ring: seq<string>, n: nat)
    requires cap > 0 && |ring| == cap + 1 && n <= cap && NoDuplicates(ring)
    ensures NoDuplicates(Latest(ring, n)) && |Latest(ring, n)| == n && ring[0] !in Latest(ring, n)
    ensures NoDuplicates(ring[1..] + [ring[0]])
    ensures
      Latest(ring[1..] + [ring[0]], if n == cap then cap else n + 1) == AfterTurn(cap, Latest(ring, n), ring[0])
  {
  }

  /** A reservation that finds its key untracked, and is admitted at once. */
  lemma FreshReservation(cfg: Config, m: Buckets, m': Buckets, next: string, rest: seq<Event>, key: string)
    requires cfg.Valid() && Reserved(cfg, m, next, 0.0, 0.0) == (m', Granted(0))
    requires MakeRoom(cfg, m, next, 0.0).Get(next) == None
    requires rest != [] ==> rest[0].ReserveAt?
    ensures
      && Sends(cfg, m, [At(next)] + rest, key) ==
         (if next == key then [FirstSend(cfg, 0.0)] else []) + Sends(cfg, m', rest, key)
      && OnlyUndoes(cfg, m, [At(next)] + rest, key) == OnlyUndoes(cfg, m', rest, key)
  {
    FullBucketAdmits(cfg, 0.0);
    hide MakeRoom, Sends, OnlyUndoes, Take, FirstSend, SendOf, Reserved;
    OneReservation(cfg, m, m', At(next), rest, key);
  }

  lemma TurnIsSent(cfg: Config, keys: seq<string>, next: string, rest: seq<Event>, key: string)
    requires cfg.Valid() && NoDuplicates(keys) && |keys| <= Cap(cfg) && next !in keys
    requires rest != [] ==> rest[0].ReserveAt?
    ensures
      var before, after := JustUsed(cfg, keys), JustUsed(cfg, AfterTurn(Cap(cfg), keys, next));
      && Sends(cfg, before, [At(next)] + rest, key) ==
         Times(FirstSend(cfg, 0.0), if next == key then 1 else 0) + Sends(cfg, after, rest, key)
      && OnlyUndoes(cfg, before, [At(next)] + rest, key) == OnlyUndoes(cfg, after, rest, key)
  {
    OneOrNone(FirstSend(cfg, 0.0));
    assert Cap(cfg) > 0;
    hide *;
    OneTurn(cfg, keys, next);
    FreshReservation(cfg, JustUsed(cfg, keys), JustUsed(cfg, AfterTurn(Cap(cfg), keys, next)), next, rest, key);
  }

  lemma OneOrNone(send: Send)
    ensures Times(send, 1) == [send] && Times(send, 0) == []
  {
    assert Times(send, 1) == [send] + Times(send, 0);
  }

  lemma TurnsAfter(turns: seq<string>, rest: seq<Event>)
    requires turns != [] && (rest != [] ==> rest[0].ReserveAt?)
    ensures
      var later := Turns(turns[1..]) + rest;
      Turns(turns) + rest == [At(turns[0])] + later && (later != [] ==> later[0].ReserveAt?)
  {
  }

  lemma TimesTogether(send: Send, a: nat, b: nat, rest: seq<Send>)
    requires a <= 1
    ensures Times(send, a) + (Times(send, b) + rest) == Times(send, a + b) + rest
  {
    OneOrNone(send);
  }

  function Once(key: string, keys: seq<string>): nat { if key in keys then 1 else 0 }

  /** The first of `turns` has its turn: the ring moves on by one. */
  lemma RingMoves(done: seq<string>, turns: seq<string>, key: string)
    requires turns != [] && NoDuplicates(turns + done)
    ensures
      var ring, k, later := turns + done, turns[0], turns[1..];
      && ring[0] == k && ring[1..] + [k] == later + (done + [k]) && (done + [k]) + later == done + turns
      && Once(key, turns) == (if k == key then 1 else 0) + Once(key, later)
  {
    var ring := turns + done;
    assert forall i :: 0 <= i < |turns| ==> ring[i] == turns[i];
    assert turns == [turns[0]] + turns[1..];
    assert forall i :: 0 < i < |turns| ==> turns[i] != turns[0];
  }

  function Grown(cap: nat, n: nat, turns: nat): nat { if n + turns <= cap then n + turns else cap }

  /** Each key of `turns` is admitted at once. */
  lemma {:induction false} TurnsAdmit(cfg: Config, done: seq<string>, turns: seq<string>, n: nat, rest: seq<Event>,
                                      key: string)
    requires cfg.Valid() && NoDuplicates(turns + done) && |turns + done| == Cap(cfg) + 1 && n <= Cap(cfg)
    requires rest != [] ==> rest[0].ReserveAt?
    ensures
      var before := JustUsed(cfg, Latest(turns + done, n));
      var after := JustUsed(cfg, Latest(done + turns, Grown(Cap(cfg), n, |turns|)));
      && Sends(cfg, before, Turns(turns) + rest, key) ==
         Times(FirstSend(cfg, 0.0), Once(key, turns)) + Sends(cfg, after, rest, key)
      && OnlyUndoes(cfg, before, Turns(turns) + rest, key) == OnlyUndoes(cfg, after, rest, key)
    decreases |turns|
  {
    hide JustUsed, Sends, OnlyUndoes, FirstSend, Latest, NoDuplicates;
    if turns == [] {
      assert turns + done == done == done + turns && Turns(turns) + rest == rest;
      assert Times(FirstSend(cfg, 0.0), 0) + Sends(cfg, JustUsed(cfg, Latest(done, n)), rest, key) ==
             Sends(cfg, JustUsed(cfg, Latest(done, n)), rest, key);
    } else {
      var k, later, tracked := turns[0], turns[1..], Latest(turns + done, n);
      var n' := if n == Cap(cfg) then Cap(cfg) else n + 1;
      RingMoves(done, turns, key);
      Rotated(Cap(cfg), turns + done, n);
      TurnsAfter(turns, rest);
      assert Grown(Cap(cfg), n, |turns|) == Grown(Cap(cfg), n', |later|);
      hide Once, Turns, AfterTurn, Times, Cap, Grown;
      TurnIsSent(cfg, tracked, k, Turns(later) + rest, key);
      TurnsAdmit(cfg, done + [k], later, n', rest, key);
      var end := JustUsed(cfg, Latest(done + turns, Grown(Cap(cfg), n, |turns|)));
      TimesTogether(FirstSend(cfg, 0.0), if k == key then 1 else 0, Once(key, later), Sends(cfg, end, rest, key));
    }
  }

  /** One round brings the ring back to where it was. */
  lemma OneRound(cfg: Config, ring: seq<string>, n: nat, rest: seq<Event>, key: string)
    requires cfg.Valid() && NoDuplicates(ring) && |ring| == Cap(cfg) + 1 && n <= Cap(cfg) && key in ring
    requires rest != [] ==> rest[0].ReserveAt?
    ensures
      var before, after := JustUsed(cfg, Latest(ring, n)), JustUsed(cfg, Latest(ring, Cap(cfg)));
      && Sends(cfg, before, Turns(ring) + rest, key) == Times(FirstSend(cfg, 0.0), 1) + Sends(cfg, after, rest, key)
      && OnlyUndoes(cfg, before, Turns(ring) + rest, key) == OnlyUndoes(cfg, after, rest, key)
  {
    assert ring + [] == ring == [] + ring && Once(key, ring) == 1;
    assert Grown(Cap(cfg), n, |ring|) == Cap(cfg);
    hide *;
    TurnsAdmit(cfg, [], ring, n, rest, key);
  }

  lemma RoundsReserve(ring: seq<string>, rounds: nat)
    ensures Rounds(ring, rounds) != [] ==> Rounds(ring, rounds)[0].ReserveAt?
  {
    if rounds > 0 && ring == [] {
      RoundsReserve(ring, rounds - 1);
    }
  }

  lemma {:induction false} RoundsAdmit(cfg: Config, ring: seq<string>, rounds: nat, n: nat, key: string)
    requires cfg.Valid() && NoDuplicates(ring) && |ring| == Cap(cfg) + 1 && n <= Cap(cfg) && key in ring
    ensures
      var before := JustUsed(cfg, Latest(ring, n));
      && Sends(cfg, before, Rounds(ring, rounds), key) == Times(FirstSend(cfg, 0.0), rounds)
      && OnlyUndoes(cfg, before, Rounds(ring, rounds), key)
    decreases rounds
  {
    hide JustUsed, Sends, OnlyUndoes, FirstSend, Latest, NoDuplicates, Turns, Cap;
    if rounds == 0 {
      NoEvents(cfg, JustUsed(cfg, Latest(ring, n)), key);
    } else {
      RoundsReserve(ring, rounds - 1);
      OneRound(cfg, ring, n, Rounds(ring, rounds - 1), key);
      RoundsAdmit(cfg, ring, rounds - 1, Cap(cfg), key);
      TimesTogether(FirstSend(cfg, 0.0), 1, rounds - 1, []);
      assert forall s: seq<Send> :: s + [] == s;
    }
  }

  lemma {:induction false} AllAtOnce(send: Send, n: nat)
    requires send.at == 0.0
    ensures StartsIn(Times(send, n), 0.0, 0.0) == n
  {
    if n > 0 {
      AllAtOnce(send, n - 1);
      assert Times(send, n)[1..] == Times(send, n - 1);
    }
  }

  lemma {:induction false} TurnsAreClocked(keys: seq<string>, rest: seq<Event>)
    requires Clocked(rest, 0.0)
    ensures Clocked(Turns(keys) + rest, 0.0)
  {
    if keys == [] {
      assert Turns(keys) + rest == rest;
    } else {
      TurnsAreClocked(keys[1..], rest);
      var later := Turns(keys[1..]) + rest;
      assert Turns(keys) + rest == [At(keys[0])] + later && ([At(keys[0])] + later)[1..] == later;
      hide Turns;
    }
  }

  lemma {:induction false} RoundsAreClocked(ring: seq<string>, n: nat)
    ensures Clocked(Rounds(ring, n), 0.0)
  {
    if n > 0 {
      RoundsAreClocked(ring, n - 1);
      TurnsAreClocked(ring, Rounds(ring, n - 1));
    }
  }

  /**
   * Whatever the rate, the burst and the cap: with one key more than the cap taking turns, any number of requests of a
   * key start at one instant, in a window of no width.
   */
  lemma ForcedEvictionExceedsTheRate(cfg: Config, ring: seq<string>, rounds: nat, key: string)
    requires cfg.Valid() && NoDuplicates(ring) && |ring| == Cap(cfg) + 1 && key in ring
    ensures Clocked(Rounds(ring, rounds), 0.0) && OnlyUndoes(cfg, Empty(), Rounds(ring, rounds), key)
    ensures StartsIn(Sends(cfg, Empty(), Rounds(ring, rounds), key), 0.0, 0.0) == rounds
  {
    RoundsAreClocked(ring, rounds);
    RoundsAdmit(cfg, ring, rounds, 0, key);
    assert JustUsed(cfg, Latest(ring, 0)) == Empty();
    AllAtOnce(FirstSend(cfg, 0.0), rounds);
  }
}
