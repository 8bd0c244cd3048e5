/** The in-process token bucket with reservations (lib/rate-limiter.ts). Time and tokens are reals. */
module RateLimiter {
  import opened Collections
  import opened Numbers

  datatype Config = Config(rate: real, burst: real, maxKeys: nat) {
    predicate Valid() { rate > 0.0 && burst >= 1.0 }
  }

  datatype Bucket = Bucket(tokens: real, updatedAt: real)

  datatype Reservation = Granted(waitMs: int) | Refused(retryAfterMs: int)

  type Buckets = InsertionMap<string, Bucket>

  /** Rounds up to the next whole millisecond. */
  function Ceil(x: real): (c: int)
    ensures c as real - 1.0 < x <= c as real
  {
    -((-x).Floor)
  }

  // ---------------------------------------------------------------------------
  // One bucket
  // ---------------------------------------------------------------------------

  /** Tokens a caller finds at `now`; an untracked key has a full bucket. */
  function Level(cfg: Config, b: Option<Bucket>, now: real): real {
    match b
    case None => cfg.burst
    case Some(b) => MinReal(cfg.burst, b.tokens + (now - b.updatedAt) * cfg.rate)
  }

  /** How long a balance of `after` tokens has to wait until it is not negative. */
  function WaitFor(cfg: Config, after: real): real
    requires cfg.Valid()
  {
    if after >= 0.0 then 0.0 else -after / cfg.rate
  }

  /** Takes one token from a bucket holding `level` tokens, if the wait is acceptable. */
  function Take(cfg: Config, level: real, now: real, maxWait: real): (Bucket, Reservation)
    requires cfg.Valid()
  {
    var after := level - 1.0;
    var wait := WaitFor(cfg, after);
    if wait > maxWait then (Bucket(level, now), Refused(Ceil(wait)))
    else (Bucket(after, now), Granted(Ceil(wait)))
  }

  function Returned(cfg: Config, b: Bucket): Bucket {
    b.(tokens := MinReal(cfg.burst, b.tokens + 1.0))
  }

  // ---------------------------------------------------------------------------
  // The whole limiter
  // ---------------------------------------------------------------------------

  predicate Idle(cfg: Config, b: Bucket, now: real) {
    b.tokens + (now - b.updatedAt) * cfg.rate >= cfg.burst
  }

  function Sweep(cfg: Config, m: Buckets, keys: seq<string>, now: real): (r: Buckets)
    decreases keys
  {
    if keys == [] then m
    else
      var k := keys[0];
      var swept := if m.Get(k).Some? && Idle(cfg, m.Get(k).value, now) then m.Delete(k) else m;
      Sweep(cfg, swept, keys[1..], now)
  }

  lemma SweepNothing(cfg: Config, m: Buckets, keys: seq<string>, now: real)
    requires keys == []
    ensures Sweep(cfg, m, keys, now) == m
  {
  }

  lemma SweepStep(cfg: Config, m: Buckets, keys: seq<string>, i: nat, now: real)
    requires i < |keys|
    ensures var idle := m.Get(keys[i]).Some? && Idle(cfg, m.Get(keys[i]).value, now);
            Sweep(cfg, m, keys[i..], now) == Sweep(cfg, if idle then m.Delete(keys[i]) else m, keys[i + 1..], now)
  {
    assert keys[i..][1..] == keys[i + 1..];
  }

  lemma {:induction false} SweepRemovesIdle(cfg: Config, m: Buckets, keys: seq<string>, now: real, key: string)
    requires m.Valid()
    ensures var r := Sweep(cfg, m, keys, now);
            && r.Valid() && |r.keys| <= |m.keys|
            && r.Get(key) == if key in keys && m.Get(key).Some? && Idle(cfg, m.Get(key).value, now) then None
                             else m.Get(key)
    decreases keys
  {
    if keys != [] {
      var k := keys[0];
      var swept := if m.Get(k).Some? && Idle(cfg, m.Get(k).value, now) then m.Delete(k) else m;
      SweepRemovesIdle(cfg, swept, keys[1..], now, key);
    }
  }

  function DropOldest(cfg: Config, m: Buckets): Buckets {
    if |m.keys| >= cfg.maxKeys && |m.keys| > 0 then m.Delete(m.keys[0]) else m
  }

  function Evicted(cfg: Config, m: Buckets, now: real): Buckets {
    DropOldest(cfg, Sweep(cfg, m, m.keys, now))
  }

  function MakeRoom(cfg: Config, m: Buckets, key: string, now: real): Buckets {
    if m.Get(key).None? && |m.keys| >= cfg.maxKeys then Evicted(cfg, m, now) else m
  }

  function Reserved(cfg: Config, m: Buckets, key: string, now: real, maxWait: real): (Buckets, Reservation)
    requires cfg.Valid()
  {
    var room := MakeRoom(cfg, m, key, now);
    var (b, answer) := Take(cfg, Level(cfg, room.Get(key), now), now, maxWait);
    (room.Put(key, b), answer)
  }

  function Released(cfg: Config, m: Buckets, key: string): Buckets {
    if m.Get(key).Some? then m.Put(key, Returned(cfg, m.Get(key).value)) else m
  }

  lemma EvictedStaysUntracked(cfg: Config, m: Buckets, key: string, now: real)
    requires m.Valid() && m.Get(key).None?
    ensures Evicted(cfg, m, now).Get(key).None?
  {
    SweepRemovesIdle(cfg, m, m.keys, now, key);
  }

  class TokenBucketLimiter {
    const cfg: Config
    var buckets: Buckets

    ghost predicate Valid()
      reads this
    {
      cfg.Valid() && buckets.Valid()
    }

    /** Refuses a non-positive rate or a burst below one; the rate is given per second and kept per millisecond. */
    static method Create(ratePerSec: real, burst: real, maxKeys: nat) returns (r: Result<TokenBucketLimiter, string>)
      ensures r.Ok? <==> ratePerSec > 0.0 && burst >= 1.0
      ensures r.Ok? ==> fresh(r.value) && r.value.Valid() && r.value.buckets == Empty()
      ensures r.Ok? ==> r.value.cfg == Config(ratePerSec / 1000.0, burst, maxKeys)
    {
      if ratePerSec <= 0.0 {
        return Err("ratePerSec must be > 0");
      }
      if burst < 1.0 {
        return Err("burst must be >= 1");
      }
      var limiter := new TokenBucketLimiter(Config(ratePerSec / 1000.0, burst, maxKeys));
      return Ok(limiter);
    }

    constructor (cfg: Config)
      requires cfg.Valid()
      ensures Valid() && this.cfg == cfg && buckets == Empty()
    {
      this.cfg := cfg;
      buckets := Empty();
    }

    /** The bucket of `key`, refilled, or a full one, for which idle buckets make room. */
    method Refilled(key: string, now: real) returns (bucket: Bucket)
      requires Valid()
      modifies this`buckets
      ensures Valid() && buckets == MakeRoom(cfg, old(buckets), key, now)
      ensures bucket == Bucket(Level(cfg, buckets.Get(key), now), now)
    {
      if buckets.Get(key).None? {
        EvictedStaysUntracked(cfg, buckets, key, now);
        hide Evicted, Collections.Without;
        if |buckets.keys| >= cfg.maxKeys {
          EvictIdle(now);
        }
        return Bucket(cfg.burst, now);
      }
      var b := buckets.Get(key).value;
      return Bucket(MinReal(cfg.burst, b.tokens + (now - b.updatedAt) * cfg.rate), now);
    }

    method Reserve(key: string, now: real, maxWait: real) returns (answer: Reservation)
      requires Valid()
      modifies this`buckets
      ensures Valid()
      ensures (buckets, answer) == Reserved(cfg, old(buckets), key, now, maxWait)
    {
      var bucket := Refilled(key, now);
      ghost var room := buckets;
      hide Level, MakeRoom, WaitFor;
      buckets := buckets.Put(key, bucket);
      var after := bucket.tokens - 1.0;
      var wait := WaitFor(cfg, after);
      if wait > maxWait {
        return Refused(Ceil(wait));
      }
      room.PutTwice(key, bucket, bucket.(tokens := after));
      buckets := buckets.Put(key, bucket.(tokens := after));
      return Granted(Ceil(wait));
    }

    method Release(key: string)
      requires Valid()
      modifies this`buckets
      ensures Valid() && buckets == Released(cfg, old(buckets), key)
    {
      if buckets.Get(key).Some? {
        var b := buckets.Get(key).value;
        buckets := buckets.Put(key, b.(tokens := MinReal(cfg.burst, b.tokens + 1.0)));
      }
    }

    method EvictIdle(now: real)
      requires Valid()
      modifies this`buckets
      ensures Valid() && buckets == Evicted(cfg, old(buckets), now)
    {
      ghost var before := buckets;
      var keys := buckets.keys;
      var i := 0;
      assert keys[i..] == keys;
      hide Sweep, Idle;
      while i < |keys|
        invariant 0 <= i <= |keys|
        invariant Valid()
        invariant buckets.Valid()
        invariant Sweep(cfg, buckets, keys[i..], now) == Sweep(cfg, before, keys, now)
      {
        SweepStep(cfg, buckets, keys, i, now);
        var b := buckets.Get(keys[i]);
        if b.Some? && Idle(cfg, b.value, now) {
          buckets := buckets.Delete(keys[i]);
        }
        i := i + 1;
      }
      SweepNothing(cfg, buckets, keys[i..], now);
      if |buckets.keys| >= cfg.maxKeys {
        if |buckets.keys| > 0 {
          buckets := buckets.Delete(buckets.keys[0]);
        }
      }
    }
  }
}
