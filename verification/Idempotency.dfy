/** The idempotency stores: on Redis, in process, and with the durable record (gateway/idempotency.ts). */
module Idempotency {
  import opened Collections

  type EventId = string

  datatype ClaimResult = Claimed | Existing(eventId: EventId)

  /** SET NX, and on conflict the stored value: one atomic script. */
  function ClaimScript<K>(redis: map<K, EventId>, key: K, eventId: EventId): (map<K, EventId>, ClaimResult) {
    if key in redis then (redis, Existing(redis[key])) else (redis[key := eventId], Claimed)
  }

  /** Compare and delete. */
  function ReleaseScript<K>(redis: map<K, EventId>, key: K, eventId: EventId): map<K, EventId> {
    if key in redis && redis[key] == eventId then redis - {key} else redis
  }

  /** The Redis key of a scope and an idempotency key. */
  function KeyFor(prefix: string, scope: string, key: string): string {
    prefix + ":" + scope + ":" + key
  }

  /** Where the first colon of `s` stands, or its length. */
  function FirstColon(s: string): nat {
    if s == [] || s[0] == ':' then 0 else 1 + FirstColon(s[1..])
  }

  lemma {:induction false} FirstColonAfter(a: string, x: string)
    requires ':' !in a
    ensures FirstColon(a + ":" + x) == |a|
  {
    if a != [] {
      assert (a + ":" + x)[1..] == a[1..] + ":" + x;
      FirstColonAfter(a[1..], x);
    }
  }

  lemma SplitAtColon(a: string, b: string, x: string, y: string)
    requires ':' !in a && ':' !in b && a + ":" + x == b + ":" + y
    ensures a == b && x == y
  {
    FirstColonAfter(a, x);
    FirstColonAfter(b, y);
    var s := a + ":" + x;
    assert s[..|a|] == a && (b + ":" + y)[..|a|] == b;
    assert s[|a| + 1..] == x && (b + ":" + y)[|a| + 1..] == y;
  }

  /** Distinct endpoints never share a Redis key, as long as scopes hold no colon (endpoint ids are UUIDs). */
  lemma KeysDoNotCollide(prefix: string, scope: string, key: string, scope': string, key': string)
    requires ':' !in scope && ':' !in scope'
    requires KeyFor(prefix, scope, key) == KeyFor(prefix, scope', key')
    ensures scope == scope' && key == key'
  {
    var p := prefix + ":";
    assert KeyFor(prefix, scope, key) == p + (scope + ":" + key);
    assert KeyFor(prefix, scope', key') == p + (scope' + ":" + key');
    assert (p + (scope + ":" + key))[|p|..] == scope + ":" + key;
    assert (p + (scope' + ":" + key'))[|p|..] == scope' + ":" + key';
    SplitAtColon(scope, scope', key, key');
  }

  datatype MemoryEntry = MemoryEntry(eventId: EventId, expiresAt: real)

  /** The claims a store entry map still holds at `now`. */
  ghost function Live(entries: map<string, MemoryEntry>, now: real): map<string, EventId> {
    map k | k in entries && entries[k].expiresAt > now :: entries[k].eventId
  }

  /** The in-process store behaves as the Redis scripts do on the claims that have not expired. */
  class MemoryIdempotencyStore {
    var entries: map<string, MemoryEntry>

    constructor ()
      ensures entries == map[]
    {
      entries := map[];
    }

    method Claim(scope: string, key: string, eventId: EventId, ttlSec: real, now: real) returns (r: ClaimResult)
      requires ttlSec > 0.0
      modifies this
      ensures (Live(entries, now), r) == ClaimScript(old(Live(entries, now)), scope + ":" + key, eventId)
      ensures r.Claimed? ==> entries == old(entries)[scope + ":" + key := MemoryEntry(eventId, now + ttlSec * 1000.0)]
      ensures r.Claimed? ==>
                forall later: real :: scope + ":" + key in Live(entries, later) <==> later < now + ttlSec * 1000.0
      ensures r.Existing? ==> entries == old(entries)
    {
      var k := scope + ":" + key;
      if k in entries && entries[k].expiresAt > now {
        return Existing(entries[k].eventId);
      }
      entries := entries[k := MemoryEntry(eventId, now + ttlSec * 1000.0)];
      assert Live(entries, now) == old(Live(entries, now))[k := eventId];
      return Claimed;
    }

    method Release(scope: string, key: string, eventId: EventId, ghost now: real)
      modifies this
      ensures Live(entries, now) == ReleaseScript(old(Live(entries, now)), scope + ":" + key, eventId)
      ensures forall k :: k in entries ==> k in old(entries) && entries[k] == old(entries)[k]
    {
      var k := scope + ":" + key;
      if k in entries && entries[k].eventId == eventId {
        entries := entries - {k};
      }
      assert forall x :: x in old(entries) && x != k ==> x in entries && entries[x] == old(entries)[x];
    }

    method Reseed(scope: string, key: string, eventId: EventId, ttlSec: real, now: real)
      requires ttlSec > 0.0
      modifies this
      ensures Live(entries, now) == old(Live(entries, now))[scope + ":" + key := eventId]
      ensures forall later: real :: scope + ":" + key in Live(entries, later) <==> later < now + ttlSec * 1000.0
    {
      entries := entries[scope + ":" + key := MemoryEntry(eventId, now + ttlSec * 1000.0)];
    }
  }

  datatype LookupAnswer = Unknown | Known(eventId: EventId) | LookupFailed

  /**
   * Fast claim, then the durable record unless the claim met an existing one; an answer without an id counts as none.
   */
  function DurableClaim<K>(redis: map<K, EventId>, key: K, eventId: EventId, answer: LookupAnswer, reseeds: bool)
    : (map<K, EventId>, ClaimResult)
  {
    var (claimed, fast) := ClaimScript(redis, key, eventId);
    if fast.Existing? || !answer.Known? || answer.eventId == "" then (claimed, fast)
    else (if reseeds then claimed[key := answer.eventId] else claimed, Existing(answer.eventId))
  }

  /**
   * After a duplicate was recognised, the next claim of the key is told the event on record, unless the reseed failed.
   */
  lemma NextClaimIsToldTheRecord<K>(redis: map<K, EventId>, key: K, eventId: EventId, original: EventId, reseeds: bool,
                                    next: EventId)
    requires key !in redis && original != ""
    ensures
      var (after, r) := DurableClaim(redis, key, eventId, Known(original), reseeds);
      && r == Existing(original)
      && ClaimScript(after, key, next) == (after, Existing(if reseeds then original else eventId))
  {
  }

  /** The store on Redis; `down` says that the call to Redis fails. */
  class RedisIdempotencyStore {
    const prefix: string
    var redis: map<string, EventId>

    constructor (prefix: string, redis: map<string, EventId>)
      ensures this.prefix == prefix && this.redis == redis
    {
      this.prefix, this.redis := prefix, redis;
    }

    /** A failed check is an error; nothing is claimed. */
    method Claim(scope: string, key: string, eventId: EventId, down: bool) returns (r: Result<ClaimResult, ()>)
      modifies this
      ensures r.Err? <==> down
      ensures r.Err? ==> redis == old(redis)
      ensures r.Ok? ==> (redis, r.value) == ClaimScript(old(redis), KeyFor(prefix, scope, key), eventId)
    {
      if down {
        return Err(());
      }
      var k := KeyFor(prefix, scope, key);
      if k in redis {
        return Ok(Existing(redis[k]));
      }
      redis := redis[k := eventId];
      return Ok(Claimed);
    }

    /** Best effort: a claim that cannot be released expires on its own. */
    method Release(scope: string, key: string, eventId: EventId, down: bool)
      modifies this
      ensures redis == if down then old(redis) else ReleaseScript(old(redis), KeyFor(prefix, scope, key), eventId)
    {
      var k := KeyFor(prefix, scope, key);
      if !down && k in redis && redis[k] == eventId {
        redis := redis - {k};
      }
    }

    /** Best effort as well. */
    method Reseed(scope: string, key: string, eventId: EventId, down: bool)
      modifies this
      ensures redis == if down then old(redis) else old(redis)[KeyFor(prefix, scope, key) := eventId]
    {
      if !down {
        redis := redis[KeyFor(prefix, scope, key) := eventId];
      }
    }
  }

  class DurableIdempotencyStore {
    const fast: RedisIdempotencyStore

    constructor (fast: RedisIdempotencyStore)
      ensures this.fast == fast
    {
      this.fast := fast;
    }

    /** `answer` is what the durable lookup returns, should it be asked. */
    method Claim(scope: string, key: string, eventId: EventId, claimDown: bool, answer: LookupAnswer, reseedDown: bool)
      returns (r: Result<ClaimResult, ()>)
      modifies fast
      ensures r.Err? <==> claimDown
      ensures r.Err? ==> fast.redis == old(fast.redis)
      ensures r.Ok? ==>
                (fast.redis, r.value) ==
                DurableClaim(old(fast.redis), KeyFor(fast.prefix, scope, key), eventId, answer, !reseedDown)
    {
      r := fast.Claim(scope, key, eventId, claimDown);
      if r.Err? || r.value.Existing? {
        return;
      }
      if answer.LookupFailed? {
        return;
      }
      if answer.Unknown? || answer.eventId == "" {
        return;
      }
      fast.Reseed(scope, key, answer.eventId, reseedDown);
      return Ok(Existing(answer.eventId));
    }

    method Release(scope: string, key: string, eventId: EventId, down: bool)
      modifies fast
      ensures fast.redis ==
              if down then old(fast.redis) else ReleaseScript(old(fast.redis), KeyFor(fast.prefix, scope, key), eventId)
    {
      fast.Release(scope, key, eventId, down);
    }
  }
}
