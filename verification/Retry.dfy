/** Backoff arithmetic shared by the queue and the inline retries (lib/retry.ts). */
module Retry {
  import opened Collections
  import opened Numbers

  datatype BackoffPolicy = BackoffPolicy(baseDelayMs: real, maxDelayMs: real)

  function Pow2(n: nat): (p: nat)
    ensures p >= 1
  {
    if n == 0 then 1 else 2 * Pow2(n - 1)
  }

  /** Math.round: halves go up. */
  function Round(x: real): (r: int)
    ensures x - 0.5 < r as real <= x + 0.5
  {
    (x + 0.5).Floor
  }

  function Exponential(base: real, doublings: nat): real { base * Pow2(doublings) as real }

  /** The capped exponential delay before jitter. */
  function Capped(retryNumber: nat, policy: BackoffPolicy): real {
    var exponent := if retryNumber >= 1 then retryNumber - 1 else 0;
    MinReal(policy.maxDelayMs, Exponential(policy.baseDelayMs, if exponent <= 30 then exponent else 30))
  }

  /** The part of `spread` that is drawn at random. */
  function Drawn(random: real, spread: real): real { random * spread }

  /** Half of the delay is kept, the other half is drawn. */
  function Jittered(half: real, random: real): real { half + Drawn(random, half) }

  function ComputeBackoffDelay(retryNumber: nat, policy: BackoffPolicy, random: real): int {
    Round(Jittered(Capped(retryNumber, policy) / 2.0, random))
  }

  /** An explicit positive Retry-After is honoured exactly. */
  function RetryDelayFor(retryAfterMs: Option<real>, retryNumber: nat, policy: BackoffPolicy, random: real): real {
    if retryAfterMs.Some? && retryAfterMs.value > 0.0 then retryAfterMs.value
    else ComputeBackoffDelay(retryNumber, policy, random) as real
  }

  lemma Share(random: real, half: real)
    requires 0.0 <= random <= 1.0 && half >= 0.0
    ensures 0.0 <= Drawn(random, half) <= half
  {
    assert half - Drawn(random, half) == (1.0 - random) * half;
  }

  lemma CappedRange(retryNumber: nat, policy: BackoffPolicy)
    requires policy.baseDelayMs >= 0.0 && policy.maxDelayMs >= 0.0
    ensures 0.0 <= Capped(retryNumber, policy) <= policy.maxDelayMs
  {
  }

  /** The delay doubles from one retry to the next until it reaches the cap or has doubled thirty times. */
  lemma CappedDoubles(retryNumber: nat, policy: BackoffPolicy)
    requires retryNumber >= 1 && policy.baseDelayMs >= 0.0 && policy.maxDelayMs >= 0.0
    ensures Capped(retryNumber + 1, policy) ==
            if retryNumber <= 30 then MinReal(policy.maxDelayMs, 2.0 * Capped(retryNumber, policy))
            else Capped(retryNumber, policy)
  {
    ExponentialDoubles(policy.baseDelayMs, retryNumber - 1);
    hide Exponential;
  }

  lemma ExponentialDoubles(base: real, doublings: nat)
    requires base >= 0.0
    ensures 0.0 <= Exponential(base, doublings) &&
            Exponential(base, doublings + 1) == 2.0 * Exponential(base, doublings)
  {
  }

  /** Jitter keeps a delay between half of the capped exponential and all of it, up to rounding. */
  lemma BackoffSpread(retryNumber: nat, policy: BackoffPolicy, random: real)
    requires 0.0 <= random <= 1.0 && policy.baseDelayMs >= 0.0 && policy.maxDelayMs >= 0.0
    ensures var capped := Capped(retryNumber, policy);
            && 0.0 <= capped <= policy.maxDelayMs
            && capped / 2.0 - 0.5 < ComputeBackoffDelay(retryNumber, policy, random) as real <= capped + 0.5
    ensures ComputeBackoffDelay(retryNumber, policy, random) >= 0
  {
    CappedRange(retryNumber, policy);
    var half := Capped(retryNumber, policy) / 2.0;
    assert half <= Jittered(half, random) <= half + half by { Share(random, half); }
    hide Capped, Jittered;
  }

  lemma DelayIsNonNegative(retryAfterMs: Option<real>, retryNumber: nat, policy: BackoffPolicy, random: real)
    requires 0.0 <= random <= 1.0 && policy.baseDelayMs >= 0.0 && policy.maxDelayMs >= 0.0
    ensures RetryDelayFor(retryAfterMs, retryNumber, policy, random) >= 0.0
  {
    BackoffSpread(retryNumber, policy, random);
  }

  /** The first retry waits the base delay before jitter, or the cap. */
  lemma CappedStarts(retryNumber: nat, policy: BackoffPolicy)
    requires retryNumber <= 1
    ensures Capped(retryNumber, policy) ==
            if policy.baseDelayMs <= policy.maxDelayMs then policy.baseDelayMs else policy.maxDelayMs
  {
    assert Exponential(policy.baseDelayMs, 0) == policy.baseDelayMs * 1.0;
  }

  /** A Retry-After is waited for exactly if it is positive; otherwise the jittered backoff is. */
  lemma RetryAfterIsHonoured(retryAfterMs: Option<real>, retryNumber: nat, policy: BackoffPolicy, random: real)
    requires 0.0 <= random <= 1.0 && policy.baseDelayMs >= 0.0 && policy.maxDelayMs >= 0.0
    ensures
      var delay, capped := RetryDelayFor(retryAfterMs, retryNumber, policy, random), Capped(retryNumber, policy);
      if retryAfterMs.Some? && retryAfterMs.value > 0.0 then delay == retryAfterMs.value
      else capped / 2.0 - 0.5 < delay <= capped + 0.5
  {
    BackoffSpread(retryNumber, policy, random);
  }

  // ---- retryAsync ----

  /**
   * The loop from attempt `k` on: `fn` is what each attempt ends with, `again` what `shouldRetry` says of an error that
   * is retryable, and `aborts` the reason with which the wait after an attempt is aborted, if it is. The result comes
   * with the number of the last attempt.
   */
  function Retried<T, E>(fn: nat -> Result<T, E>, again: (E, nat) -> bool, aborts: nat -> Option<E>, retries: nat,
                         k: nat)
    : (Result<T, E>, nat)
    requires 1 <= k <= retries + 1
    decreases retries + 1 - k
  {
    match fn(k)
    case Ok(_) => (fn(k), k)
    case Err(e) =>
      if k > retries || !again(e, k) then (fn(k), k)
      else if aborts(k).Some? then (Err(aborts(k).value), k)
      else Retried(fn, again, aborts, retries, k + 1)
  }

  /** `again` is asked for the retry that follows attempt `k`. */
  predicate Repeats<T, E>(fn: nat -> Result<T, E>, again: (E, nat) -> bool, aborts: nat -> Option<E>, retries: nat,
                          k: nat) {
    k <= retries && fn(k).Err? && again(fn(k).error, k) && aborts(k) == None
  }

  /**
   * At most `retries + 1` attempts; every one but the last failed with an error that may be retried; and what comes out
   * is the last attempt's outcome, or the reason why the wait after it was aborted.
   */
  lemma {:induction false} RetriesAreJustified<T, E>(fn: nat -> Result<T, E>, again: (E, nat) -> bool,
                                                     aborts: nat -> Option<E>,
                                                     retries: nat, k: nat)
    requires 1 <= k <= retries + 1
    ensures
      var (r, last) := Retried(fn, again, aborts, retries, k);
      && k <= last <= retries + 1
      && (forall i :: k <= i < last ==> Repeats(fn, again, aborts, retries, i))
      && !Repeats(fn, again, aborts, retries, last)
      && (r == fn(last) || (last <= retries && fn(last).Err? && again(fn(last).error, last) && r.Err? &&
                            aborts(last) == Some(r.error)))
    decreases retries + 1 - k
  {
    if Repeats(fn, again, aborts, retries, k) {
      RetriesAreJustified(fn, again, aborts, retries, k + 1);
    }
  }

  /** The loop itself, for attempts without effects of their own. */
  method RetryAsync<T, E>(fn: nat -> Result<T, E>, retryable: E -> bool, shouldRetry: (E, nat) -> bool,
                          aborts: nat -> Option<E>,
                          retries: nat)
    returns (r: Result<T, E>, attempts: nat)
    ensures (r, attempts) == Retried(fn, (e, n) => retryable(e) && shouldRetry(e, n), aborts, retries, 1)
  {
    var attempt := 1;
    while true
      invariant 1 <= attempt <= retries + 1
      invariant Retried(fn, (e, n) => retryable(e) && shouldRetry(e, n), aborts, retries, attempt) ==
                Retried(fn, (e, n) => retryable(e) && shouldRetry(e, n), aborts, retries, 1)
      decreases retries + 1 - attempt
    {
      match fn(attempt)
      case Ok(_) => return fn(attempt), attempt;
      case Err(e) =>
        if attempt > retries || !retryable(e) || !shouldRetry(e, attempt) {
          return fn(attempt), attempt;
        }
        if aborts(attempt).Some? {
          return Err(aborts(attempt).value), attempt;
        }
        attempt := attempt + 1;
    }
  }
}
