/** One Bot API call: rate limiting, inline retries and chat migration (integrations/telegram/telegram-driver.ts). */
module TelegramCall {
  import opened Collections
  import opened Numbers
  import opened RateLimiter
  import opened TelegramLimits
  import opened Retry

  datatype Kind = RateLimitError | NetworkError | TimeoutError | ExternalApiError | OtherError

  datatype CallError = CallError(kind: Kind, retryable: bool, retryAfterMs: Option<real>, httpStatus: Option<int>,
                                 connectPhase: bool, migrateTo: Option<int>)

  /** The `result` of a Bot API envelope. */
  type Value = string

  datatype ChatId = NumericChat(n: int) | NamedChat(name: string)

  /** A refusal by one of the client's own limiters. */
  function ClientLimit(retryAfterMs: int): CallError {
    CallError(RateLimitError, true, Some(MaxReal(0.0, retryAfterMs as real)), None, false, None)
  }

  predicate IsSafeToRetryInline(e: CallError, maxWait: int) {
    match e.kind
    case RateLimitError => e.retryAfterMs.Some? && e.retryAfterMs.value <= maxWait as real
    case NetworkError => e.connectPhase
    case TimeoutError => e.connectPhase
    case ExternalApiError => e.retryable && e.httpStatus.Some? && e.httpStatus.value >= 500
    case OtherError => false
  }

  predicate MayRepeat(e: CallError, maxWait: int) {
    e.retryable && IsSafeToRetryInline(e, maxWait)
  }

  /** What the world answers while one retry loop runs: the replies by attempt, and which waits are aborted. */
  datatype Env = Env(now: real, chatNow: real, waitAborted: Option<CallError>, reply: nat -> Result<Value, CallError>,
                        delayAborted: nat -> Option<CallError>)

  /** Whether attempt `k` gets as far as its HTTP request, given how the first attempt fared with the limiters. */
  predicate Sends(o: Outcome, env: Env, k: nat) {
    k != 1 || (o.Passed? && (o.waitMs <= 0 || env.waitAborted == None))
  }

  /** How attempt `k` ends. */
  function Once(o: Outcome, env: Env, k: nat): Result<Value, CallError> {
    if Sends(o, env, k) then env.reply(k)
    else
      match o
      case Passed(_) => Err(env.waitAborted.value)
      case BotLimited(retryAfterMs) => Err(ClientLimit(retryAfterMs))
      case ChatLimited(retryAfterMs) => Err(ClientLimit(retryAfterMs))
  }

  function Attempts(o: Outcome, env: Env): nat -> Result<Value, CallError> {
    (k: nat) => Once(o, env, k)
  }

  function Again(maxWait: int): (CallError, nat) -> bool {
    (e, n) => MayRepeat(e, maxWait)
  }

  /** The outcome of a retry loop and its number of attempts. */
  function Looped(o: Outcome, env: Env, maxWait: int, retries: nat): (Result<Value, CallError>, nat) {
    LoopedFrom(o, env, maxWait, retries, 1)
  }

  /** The loop from attempt `k` on. */
  function LoopedFrom(o: Outcome, env: Env, maxWait: int, retries: nat, k: nat): (Result<Value, CallError>, nat)
    requires 1 <= k <= retries + 1
  {
    Retried(Attempts(o, env), Again(maxWait), env.delayAborted, retries, k)
  }

  lemma LoopStep(o: Outcome, env: Env, maxWait: int, retries: nat, k: nat)
    requires 1 <= k <= retries + 1
    ensures
      var once := Once(o, env, k);
      LoopedFrom(o, env, maxWait, retries, k) ==
      if once.Ok? || k > retries || !MayRepeat(once.error, maxWait) then (once, k)
      else if env.delayAborted(k).Some? then (Err(env.delayAborted(k).value), k)
      else LoopedFrom(o, env, maxWait, retries, k + 1)
  {
  }

  function Requests(o: Outcome, env: Env, attempts: nat): int {
    if Sends(o, env, 1) then attempts else attempts - 1
  }

  datatype Called = Called(limits: Limits, r: Result<Value, CallError>, requests: int, acquisitions: int)

  function WithRetries(c: Configs, s: Limits, q: Request, env: Env, retries: nat): Called
    requires c.Valid()
  {
    var (limits, o) := Acquired(c, s, q);
    var (r, attempts) := Looped(o, env, c.maxWait, retries);
    Called(limits, r, Requests(o, env, attempts), 1)
  }

  predicate Migrates(r: Result<Value, CallError>, chat: Option<ChatId>) {
    r.Err? && r.error.migrateTo.Some? && chat != Some(NumericChat(r.error.migrateTo.value))
  }

  /** The whole call; `key` is the bucket of a bot's chat. */
  function WholeCall(c: Configs, s: Limits, key: (string, ChatId) -> string, bot: string, chat: Option<ChatId>,
                        first: Env, second: Env, retries: nat): Called
    requires c.Valid()
  {
    var one := WithRetries(c, s, Asked(key, bot, chat, first), first, retries);
    if !Migrates(one.r, chat) then one
    else
      var moved := Some(NumericChat(one.r.error.migrateTo.value));
      var two := WithRetries(c, one.limits, Asked(key, bot, moved, second), second, retries);
      Called(two.limits, two.r, one.requests + two.requests, one.acquisitions + two.acquisitions)
  }

  function KeyOfChat(key: (string, ChatId) -> string, bot: string, chat: Option<ChatId>): Option<string> {
    if chat == None then None else Some(key(bot, chat.value))
  }

  /** The tokens a call asks for. */
  function Asked(key: (string, ChatId) -> string, bot: string, chat: Option<ChatId>, env: Env): Request {
    Request(bot, KeyOfChat(key, bot, chat), env.now, env.chatNow)
  }

  datatype Start = Start(limits: Limits, requests: int, acquisitions: int)

  class TelegramClient {
    const limits: ClientLimits
    const inlineRetries: nat
    const key: (string, ChatId) -> string
    var requests: int
    var acquisitions: int

    ghost predicate Valid()
      reads limits, limits.botLimiter, limits.chatLimiter
    {
      limits.Valid()
    }

    constructor (limits: ClientLimits, inlineRetries: nat, key: (string, ChatId) -> string)
      requires limits.Valid()
      ensures Valid() && this.limits == limits && this.inlineRetries == inlineRetries && this.key == key
      ensures requests == 0 && acquisitions == 0
    {
      this.limits, this.inlineRetries, this.key := limits, inlineRetries, key;
      requests, acquisitions := 0, 0;
    }

    /** Where the client stands before attempt `attempt` of a loop that began in `start`. */
    ghost predicate Before(start: Start, q: Request, env: Env, attempt: nat)
      requires limits.Cfg().Valid() && attempt >= 1
      reads this, limits.botLimiter, limits.chatLimiter
    {
      var (acquired, o) := Acquired(limits.Cfg(), start.limits, q);
      && limits.State() == (if attempt == 1 then start.limits else acquired)
      && requests == start.requests + (if attempt == 1 then 0 else Requests(o, env, attempt - 1))
      && acquisitions == start.acquisitions + if attempt == 1 then 0 else 1
    }

    /** Tokens and the wait for them; what is thrown instead of going on to the request. */
    method AcquireAndWait(bot: string, chat: Option<ChatId>, env: Env) returns (thrown: Option<CallError>)
      requires Valid()
      modifies this`acquisitions, limits.botLimiter`buckets, limits.chatLimiter`buckets
      ensures Valid() && acquisitions == old(acquisitions) + 1
      ensures
        var (acquired, o) := Acquired(limits.Cfg(), old(limits.State()),
                                      Asked(key, bot, chat, env));
        && limits.State() == acquired
        && thrown == if Sends(o, env, 1) then None else Some(Once(o, env, 1).error)
    {
      var chatKey := if chat == None then None else Some(key(bot, chat.value));
      assert limits.Cfg().Valid();
      hide Acquired, ClientLimits.Valid, ClientLimits.State;
      var outcome := limits.AcquireRateLimit(bot, chatKey, env.now, env.chatNow);
      acquisitions := acquisitions + 1;
      match outcome
      case BotLimited(retryAfterMs) => return Some(ClientLimit(retryAfterMs));
      case ChatLimited(retryAfterMs) => return Some(ClientLimit(retryAfterMs));
      case Passed(waitMs) =>
        if waitMs > 0 && env.waitAborted.Some? {
          return Some(env.waitAborted.value);
        }
        return None;
    }

    /** Attempt `attempt` of a retry loop; only the first takes tokens. */
    method CallOnce(bot: string, chat: Option<ChatId>, env: Env, attempt: nat, ghost start: Start)
      returns (r: Result<Value, CallError>)
      requires Valid() && attempt >= 1 && Before(start, Asked(key, bot, chat, env), env, attempt)
      modifies this`requests, this`acquisitions, limits.botLimiter`buckets, limits.chatLimiter`buckets
      ensures Valid() && Before(start, Asked(key, bot, chat, env), env, attempt + 1)
      ensures
        var o := Acquired(limits.Cfg(), start.limits, Asked(key, bot, chat, env)).1;
        r == Once(o, env, attempt)
    {
      assert limits.Cfg().Valid();
      hide Acquired, KeyOfChat, ClientLimits.Valid, ClientLimits.State;
      if attempt == 1 {
        var thrown := AcquireAndWait(bot, chat, env);
        if thrown.Some? {
          return Err(thrown.value);
        }
      }
      requests := requests + 1;
      return env.reply(attempt);
    }

    method CallWithRetries(bot: string, chat: Option<ChatId>, env: Env) returns (r: Result<Value, CallError>)
      requires Valid()
      modifies this`requests, this`acquisitions, limits.botLimiter`buckets, limits.chatLimiter`buckets
      ensures Valid()
      ensures
        Called(limits.State(), r, requests - old(requests), acquisitions - old(acquisitions)) ==
        WithRetries(limits.Cfg(), old(limits.State()), Asked(key, bot, chat, env), env,
                    inlineRetries)
    {
      assert limits.Cfg().Valid();
      hide Acquired, ClientLimits.Valid, LoopedFrom, Once, Requests, KeyOfChat;
      ghost var q := Asked(key, bot, chat, env);
      ghost var start := Start(limits.State(), requests, acquisitions);
      ghost var o := Acquired(limits.Cfg(), start.limits, q).1;
      var attempt := 1;
      while true
        invariant 1 <= attempt <= inlineRetries + 1 && Valid() && Before(start, q, env, attempt)
        invariant LoopedFrom(o, env, limits.maxWait, inlineRetries, attempt) ==
                  LoopedFrom(o, env, limits.maxWait, inlineRetries, 1)
        decreases inlineRetries + 1 - attempt
      {
        hide Before;
        r := CallOnce(bot, chat, env, attempt, start);
        LoopStep(o, env, limits.maxWait, inlineRetries, attempt);
        if r.Ok? || attempt > inlineRetries || !r.error.retryable || !IsSafeToRetryInline(r.error, limits.maxWait) {
          break;
        }
        if env.delayAborted(attempt).Some? {
          r := Err(env.delayAborted(attempt).value);
          break;
        }
        attempt := attempt + 1;
      }
    }

    method Call(bot: string, chat: Option<ChatId>, first: Env, second: Env) returns (r: Result<Value, CallError>)
      requires Valid()
      modifies this`requests, this`acquisitions, limits.botLimiter`buckets, limits.chatLimiter`buckets
      ensures Valid()
      ensures
        Called(limits.State(), r, requests - old(requests), acquisitions - old(acquisitions)) ==
        WholeCall(limits.Cfg(), old(limits.State()), key, bot, chat, first, second, inlineRetries)
    {
      hide WithRetries, ClientLimits.Valid, ClientLimits.State;
      r := CallWithRetries(bot, chat, first);
      if r.Err? && r.error.migrateTo.Some? && chat != Some(NumericChat(r.error.migrateTo.value)) {
        r := CallWithRetries(bot, Some(NumericChat(r.error.migrateTo.value)), second);
      }
    }
  }

  // ---- what a call can cost ----

  lemma LoopIsBounded(c: Configs, s: Limits, q: Request, env: Env, retries: nat)
    requires c.Valid()
    ensures 0 <= WithRetries(c, s, q, env, retries).requests <= retries + 1
  {
    var o := Acquired(c, s, q).1;
    RetriesAreJustified(Attempts(o, env), Again(c.maxWait), env.delayAborted, retries, 1);
  }

  /**
   * One call makes at most `2 * (inlineRetries + 1)` HTTP requests and asks the limiters once, or twice if the chat
   * moved.
   */
  lemma CallIsBounded(c: Configs, s: Limits, key: (string, ChatId) -> string, bot: string, chat: Option<ChatId>,
                         first: Env, second: Env, retries: nat)
    requires c.Valid()
    ensures
      var called := WholeCall(c, s, key, bot, chat, first, second, retries);
      && 0 <= called.requests <= 2 * (retries + 1)
      && called.acquisitions ==
         if Migrates(WithRetries(c, s, Asked(key, bot, chat, first), first, retries).r, chat)
         then 2 else 1
  {
    var one := WithRetries(c, s, Asked(key, bot, chat, first), first, retries);
    LoopIsBounded(c, s, Asked(key, bot, chat, first), first, retries);
    hide WithRetries;
    if Migrates(one.r, chat) {
      var moved := Some(NumericChat(one.r.error.migrateTo.value));
      LoopIsBounded(c, one.limits, Asked(key, bot, moved, second), second, retries);
    }
  }

  /**
   * Every repeat follows an error that is retryable and safe to retry inline, and the loop ends with the last attempt's
   * outcome, or with the reason why the wait for the next was aborted.
   */
  lemma RepeatsAreSafe(o: Outcome, env: Env, maxWait: int, retries: nat)
    ensures
      var (r, last) := Looped(o, env, maxWait, retries);
      && 1 <= last <= retries + 1
      && (forall k :: 1 <= k < last ==> Once(o, env, k).Err? && MayRepeat(Once(o, env, k).error, maxWait))
      && (r == Once(o, env, last) || (r.Err? && env.delayAborted(last) == Some(r.error)))
  {
    var (r, last) := Looped(o, env, maxWait, retries);
    RetriesAreJustified(Attempts(o, env), Again(maxWait), env.delayAborted, retries, 1);
    forall k | 1 <= k < last
      ensures Once(o, env, k).Err? && MayRepeat(Once(o, env, k).error, maxWait)
    {
      assert Repeats(Attempts(o, env), Again(maxWait), env.delayAborted, retries, k);
    }
  }

  /** The request may have reached the server before it failed. */
  predicate MayHaveArrived(e: CallError) {
    (e.kind.NetworkError? || e.kind.TimeoutError?) && !e.connectPhase
  }

  /** Repeating the request now cannot help: the error is the caller's, or the wait is longer than accepted. */
  predicate IsFinal(e: CallError, maxWait: int) {
    || !e.retryable || e.kind.OtherError?
    || (e.kind.RateLimitError? && (e.retryAfterMs.None? || e.retryAfterMs.value > maxWait as real))
    || (e.kind.ExternalApiError? && (e.httpStatus.None? || e.httpStatus.value < 500))
  }

  /**
   * A request is sent again if and only if attempts are left, its error is neither final nor that of a request that may
   * have arrived, and the wait for the next attempt is not aborted.
   */
  lemma RepeatsAreDecidedRight(o: Outcome, env: Env, maxWait: int, retries: nat)
    ensures
      var (_, last) := Looped(o, env, maxWait, retries);
      && 1 <= last <= retries + 1
      && forall k :: 1 <= k <= last ==>
           (k < last <==>
            && k <= retries && Once(o, env, k).Err? && env.delayAborted(k) == None
            && !IsFinal(Once(o, env, k).error, maxWait) && !MayHaveArrived(Once(o, env, k).error))
  {
    var (_, last) := Looped(o, env, maxWait, retries);
    RetriesAreJustified(Attempts(o, env), Again(maxWait), env.delayAborted, retries, 1);
    hide Once;
    forall k | 1 <= k <= last
      ensures k < last <==>
              && k <= retries && Once(o, env, k).Err? && env.delayAborted(k) == None
              && !IsFinal(Once(o, env, k).error, maxWait) && !MayHaveArrived(Once(o, env, k).error)
    {
      assert k < last <==> Repeats(Attempts(o, env), Again(maxWait), env.delayAborted, retries, k);
      assert Attempts(o, env)(k) == Once(o, env, k);
      if Once(o, env, k).Err? {
        assert Again(maxWait)(Once(o, env, k).error, k) == MayRepeat(Once(o, env, k).error, maxWait);
      }
    }
  }

  lemma RefusalWaitsTooLong(c: Configs, s: Limits, q: Request)
    requires c.Valid()
    ensures
      match Acquired(c, s, q).1
      case Passed(_) => true
      case BotLimited(retryAfterMs) => retryAfterMs as real > c.maxWait as real
      case ChatLimited(retryAfterMs) => retryAfterMs as real > c.maxWait as real
  {
  }

  /**
   * A refusal by the client's own limiters ends the loop at once, as a retryable rate limit with the wait it asks for:
   * no request is ever made without both tokens.
   */
  lemma RefusalIsNotRepeated(c: Configs, s: Limits, q: Request, env: Env, retries: nat)
    requires c.Valid() && !Acquired(c, s, q).1.Passed?
    ensures
      var called, wait := WithRetries(c, s, q, env, retries), Acquired(c, s, q).1.retryAfterMs;
      && called.requests == 0 && wait > c.maxWait
      && called.r == Err(CallError(RateLimitError, true, Some(wait as real), None, false, None))
  {
    RefusalWaitsTooLong(c, s, q);
    var bot, chat := WaitIsDecidedRight(c, s, q);
    hide Acquired;
  }

  /**
   * With both tokens, the first request is sent if and only if there is nothing to wait for or the wait is not aborted.
   */
  lemma FirstRequestIsSentIff(c: Configs, s: Limits, q: Request, env: Env)
    requires c.Valid() && Acquired(c, s, q).1.Passed?
    ensures
      var o := Acquired(c, s, q).1;
      Once(o, env, 1) == if o.waitMs == 0 || env.waitAborted.None? then env.reply(1) else Err(env.waitAborted.value)
    ensures
      var o, called := Acquired(c, s, q).1, WithRetries(c, s, q, env, 0);
      called.requests == if o.waitMs == 0 || env.waitAborted.None? then 1 else 0
  {
    var bot, chat := WaitIsDecidedRight(c, s, q);
    hide Acquired;
  }

  /** A chat that has moved is asked again under its new id, once, and only if that is not the id that was asked for. */
  lemma MovedChatIsFollowed(c: Configs, s: Limits, key: (string, ChatId) -> string, bot: string, chat: Option<ChatId>,
                            first: Env, second: Env, retries: nat)
    requires c.Valid()
    ensures
      var asked := Request(bot, if chat.None? then None else Some(key(bot, chat.value)), first.now, first.chatNow);
      var one, whole := WithRetries(c, s, asked, first, retries),
                        WholeCall(c, s, key, bot, chat, first, second, retries);
      if one.r.Err? && one.r.error.migrateTo.Some? && chat != Some(NumericChat(one.r.error.migrateTo.value)) then
        var moved := Request(bot, Some(key(bot, NumericChat(one.r.error.migrateTo.value))), second.now, second.chatNow);
        var two := WithRetries(c, one.limits, moved, second, retries);
        && whole.r == two.r && whole.limits == two.limits && whole.requests == one.requests + two.requests
        && whole.acquisitions == 2
      else whole == one && whole.acquisitions == 1
  {
    hide Acquired, Looped, Requests;
  }

  /** Whatever is waited for inline is short: an accepted Retry-After, or the backoff. */
  lemma InlineDelaysAreBounded(e: CallError, maxWait: int, k: nat, policy: BackoffPolicy, random: real)
    requires MayRepeat(e, maxWait) && (e.kind != RateLimitError ==> e.retryAfterMs == None)
    requires 0.0 <= random <= 1.0 && policy.baseDelayMs >= 0.0 && policy.maxDelayMs >= 0.0
    ensures 0.0 <= RetryDelayFor(e.retryAfterMs, k, policy, random) <= MaxReal(maxWait as real, policy.maxDelayMs + 0.5)
  {
    BackoffSpread(k, policy, random);
  }
}
