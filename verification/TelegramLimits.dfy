/** The two composed limiters of the Telegram client, one bucket per bot and one per chat (telegram-driver.ts). */
module TelegramLimits {
  import opened Collections
  import opened Numbers
  import opened RateLimiter
  import opened LimiterBounds

  datatype Outcome =
    | Passed(waitMs: int)
    | BotLimited(retryAfterMs: int)
    | ChatLimited(retryAfterMs: int)

  datatype Configs = Configs(bot: Config, chat: Config, maxWait: int) {
    predicate Valid() { bot.Valid() && chat.Valid() }
  }

  datatype Limits = Limits(bot: Buckets, chat: Buckets) {
    ghost predicate Valid() { bot.Valid() && chat.Valid() }
  }

  /**
   * A first attempt; `chat` is the key of its chat bucket, absent for methods without a chat id. Each limiter reads the
   * clock for itself: the bot's at `now`, the chat's at `chatNow`.
   */
  datatype Request = Request(bot: string, chat: Option<string>, now: real, chatNow: real) {
    function ClockOf(perChat: bool): real { if perChat then chatNow else now }

    /** When the request has its tokens and starts to wait. */
    function DecidedAt(): real { ClockOf(chat.Some?) }
  }

  function Acquired(c: Configs, s: Limits, r: Request): (Limits, Outcome)
    requires c.Valid()
  {
    var (bot, global) := Reserved(c.bot, s.bot, r.bot, r.now, c.maxWait as real);
    if global.Refused? then (Limits(bot, s.chat), BotLimited(global.retryAfterMs))
    else if r.chat.None? then (Limits(bot, s.chat), Passed(global.waitMs))
    else
      var (chat, perChat) := Reserved(c.chat, s.chat, r.chat.value, r.chatNow, c.maxWait as real);
      if perChat.Refused? then (Limits(Released(c.bot, bot, r.bot), chat), ChatLimited(perChat.retryAfterMs))
      else (Limits(bot, chat), Passed(MaxInt(global.waitMs, perChat.waitMs)))
  }

  class ClientLimits {
    const botLimiter: TokenBucketLimiter
    const chatLimiter: TokenBucketLimiter
    const maxWait: int

    ghost predicate Valid()
      reads this, botLimiter, chatLimiter
    {
      botLimiter != chatLimiter && botLimiter.Valid() && chatLimiter.Valid()
    }

    ghost function Cfg(): Configs {
      Configs(botLimiter.cfg, chatLimiter.cfg, maxWait)
    }

    ghost function State(): Limits
      reads botLimiter, chatLimiter
    {
      Limits(botLimiter.buckets, chatLimiter.buckets)
    }

    constructor (botLimiter: TokenBucketLimiter, chatLimiter: TokenBucketLimiter, maxWait: int)
      requires botLimiter != chatLimiter && botLimiter.Valid() && chatLimiter.Valid()
      ensures Valid() && this.botLimiter == botLimiter && this.chatLimiter == chatLimiter && this.maxWait == maxWait
    {
      this.botLimiter, this.chatLimiter, this.maxWait := botLimiter, chatLimiter, maxWait;
    }

    method AcquireRateLimit(bot: string, chat: Option<string>, now: real, chatNow: real) returns (outcome: Outcome)
      requires Valid()
      modifies botLimiter`buckets, chatLimiter`buckets
      ensures Valid()
      ensures (State(), outcome) == Acquired(Cfg(), old(State()), Request(bot, chat, now, chatNow))
    {
      var global := botLimiter.Reserve(bot, now, maxWait as real);
      if global.Refused? {
        return BotLimited(global.retryAfterMs);
      }
      var wait := global.waitMs;
      if chat.Some? {
        var perChat := chatLimiter.Reserve(chat.value, chatNow, maxWait as real);
        if perChat.Refused? {
          botLimiter.Release(bot);
          return ChatLimited(perChat.retryAfterMs);
        }
        wait := MaxInt(wait, perChat.waitMs);
      }
      return Passed(wait);
    }
  }

  // ---------------------------------------------------------------------------
  // All or nothing
  // ---------------------------------------------------------------------------

  /** Every bucket was last touched by `now`. */
  ghost predicate Touched(m: Buckets, now: real) {
    forall k :: m.Get(k).Some? ==> m.Get(k).value.updatedAt <= now
  }

  /** A request refused by either limiter leaves the bot limiter answering as if it had never been made. */
  lemma RefusalSparesBot(c: Configs, s: Limits, r: Request, key: string)
    requires c.Valid() && s.Valid() && Touched(s.bot, r.now)
    requires !Acquired(c, s, r).1.Passed?
    requires Spares(c.bot, s.bot, ReserveAt(r.bot, r.now, c.maxWait as real), key)
    ensures Acquired(c, s, r).0.bot.Valid()
    ensures Similar(c.bot, Acquired(c, s, r).0.bot.Get(key), s.bot.Get(key), r.now)
  {
    var e := ReserveAt(r.bot, r.now, c.maxWait as real);
    MakeRoomKeepsOthers(c.bot, s.bot, e, key);
    var b := MakeRoom(c.bot, s.bot, r.bot, r.now).Get(key);
    if key == r.bot {
      if Reserved(c.bot, s.bot, r.bot, r.now, c.maxWait as real).1.Refused? {
        RefusalIsInvisible(c.bot, b, r.now, c.maxWait as real);
      } else {
        ReleaseUndoes(c.bot, b, r.now, c.maxWait as real);
      }
    }
  }

  /** So it does the chat limiter, which it may not even have reached. */
  lemma RefusalSparesChat(c: Configs, s: Limits, r: Request, key: string)
    requires c.Valid() && s.Valid() && Touched(s.chat, r.chatNow)
    requires !Acquired(c, s, r).1.Passed?
    requires Acquired(c, s, r).1.ChatLimited? ==>
               Spares(c.chat, s.chat, ReserveAt(r.chat.value, r.chatNow, c.maxWait as real), key)
    ensures Similar(c.chat, Acquired(c, s, r).0.chat.Get(key), s.chat.Get(key), r.chatNow)
  {
    if Acquired(c, s, r).1.ChatLimited? {
      MakeRoomKeepsOthers(c.chat, s.chat, ReserveAt(r.chat.value, r.chatNow, c.maxWait as real), key);
      if key == r.chat.value {
        RefusalIsInvisible(c.chat, MakeRoom(c.chat, s.chat, r.chat.value, r.chatNow).Get(key), r.chatNow,
                           c.maxWait as real);
      }
    }
  }

  /** A refusal, by either limiter, never changes what the bot limiter answers to any later traffic. */
  lemma RefusalKeepsBotAnswers(c: Configs, s: Limits, r: Request, key: string, later: seq<Event>)
    requires c.Valid() && s.Valid() && Touched(s.bot, r.now)
    requires !Acquired(c, s, r).1.Passed?
    requires Spares(c.bot, s.bot, ReserveAt(r.bot, r.now, c.maxWait as real), key)
    requires Clocked(later, r.now)
    requires NeverForced(c.bot, s.bot, later, key) && NeverForced(c.bot, Acquired(c, s, r).0.bot, later, key)
    ensures Answers(c.bot, Acquired(c, s, r).0.bot, later, key) == Answers(c.bot, s.bot, later, key)
  {
    RefusalSparesBot(c, s, r, key);
    hide Acquired, Spares, Similar;
    SimilarToItself(c.bot, s.bot, key, r.now);
    CappedRefinesUncapped(c.bot, s.bot, s.bot.Get(key), later, key, r.now);
    CappedRefinesUncapped(c.bot, Acquired(c, s, r).0.bot, s.bot.Get(key), later, key, r.now);
  }

  lemma SimilarToItself(cfg: Config, m: Buckets, key: string, now: real)
    requires Touched(m, now)
    ensures Similar(cfg, m.Get(key), m.Get(key), now)
  {
  }

  // ---------------------------------------------------------------------------
  // The composed bound
  // ---------------------------------------------------------------------------

  /** The clock does not go back, and at most `lag` milliseconds lie between the two readings of a request. */
  ghost predicate Ordered(rs: seq<Request>, since: real, lag: real) {
    rs == [] ||
    (since <= rs[0].now <= rs[0].chatNow <= rs[0].now + lag && Ordered(rs[1..], rs[0].chatNow, lag))
  }

  /** The reservation the request makes in the bot limiter, or in the chat limiter if it gets that far. */
  ghost function Reservation(c: Configs, s: Limits, r: Request, perChat: bool): Option<Event>
    requires c.Valid()
  {
    if !perChat then Some(ReserveAt(r.bot, r.now, c.maxWait as real))
    else if r.chat.Some? && !Acquired(c, s, r).1.BotLimited?
         then Some(ReserveAt(r.chat.value, r.chatNow, c.maxWait as real))
    else None
  }

  ghost function Cfg(c: Configs, perChat: bool): Config { if perChat then c.chat else c.bot }

  ghost function Side(s: Limits, perChat: bool): Buckets { if perChat then s.chat else s.bot }

  /** Along the run that limiter never drops a bucket of `key` that is still refilling. */
  ghost predicate NeverDropped(c: Configs, s: Limits, rs: seq<Request>, key: string, perChat: bool)
    requires c.Valid()
    decreases |rs|
  {
    rs == [] ||
    (var e := Reservation(c, s, rs[0], perChat);
     && (e.Some? ==> Spares(Cfg(c, perChat), Side(s, perChat), e.value, key))
     && NeverDropped(c, Acquired(c, s, rs[0]).0, rs[1..], key, perChat))
  }

  /** The tokens the request finds in the bucket of its bot, or of its chat. */
  ghost function Found(c: Configs, s: Limits, r: Request, perChat: bool): real
    requires c.Valid() && (perChat ==> r.chat.Some?)
  {
    var key := if perChat then r.chat.value else r.bot;
    var now := r.ClockOf(perChat);
    Level(Cfg(c, perChat), MakeRoom(Cfg(c, perChat), Side(s, perChat), key, now).Get(key), now)
  }

  /** A passing request as that bucket sees it: its real start time and its position in the bucket's token stream. */
  ghost function PassOf(c: Configs, s: Limits, r: Request, perChat: bool): Send
    requires c.Valid() && Acquired(c, s, r).1.Passed? && (perChat ==> r.chat.Some?)
  {
    Send(r.DecidedAt() + Acquired(c, s, r).1.waitMs as real,
         PositionOf(Cfg(c, perChat), Found(c, s, r, perChat), r.ClockOf(perChat)))
  }

  ghost predicate Concerns(r: Request, key: string, perChat: bool) {
    if perChat then r.chat == Some(key) else r.bot == key
  }

  /** The first attempts of one bot (or of one chat) that pass both limiters. */
  ghost function Passes(c: Configs, s: Limits, rs: seq<Request>, key: string, perChat: bool): seq<Send>
    requires c.Valid()
    decreases |rs|
  {
    if rs == [] then []
    else
      (if Concerns(rs[0], key, perChat) && Acquired(c, s, rs[0]).1.Passed? then [PassOf(c, s, rs[0], perChat)] else [])
      + Passes(c, Acquired(c, s, rs[0]).0, rs[1..], key, perChat)
  }

  lemma WaitAccepted(cfg: Config, level: real, now: real, maxWait: int)
    requires cfg.Valid() && Take(cfg, level, now, maxWait as real).1.Granted?
    ensures 0 <= Take(cfg, level, now, maxWait as real).1.waitMs <= maxWait
  {
  }

  /** Waiting longer than asked, but no longer than accepted, keeps a start on time. */
  lemma PassIsOnTime(cfg: Config, level: real, now: real, maxWait: int, lag: real, send: Send)
    requires cfg.Valid() && level <= cfg.burst
    requires Take(cfg, level, now, maxWait as real).1.Granted?
    requires now + Take(cfg, level, now, maxWait as real).1.waitMs as real <= send.at <= now + lag + maxWait as real
    requires send.position == PositionOf(cfg, level, now)
    ensures OnTime(cfg, send, maxWait as real + lag)
  {
    var latest := send.at - (maxWait as real + lag);
    Distribute(cfg.rate, now, latest);
    ProductNonNegative(cfg.rate, now - latest);
    StartTimes(cfg, level, now, maxWait as real);
    var own := SendOf(cfg, level, now, maxWait as real);
    Distribute(cfg.rate, send.at, own.at);
    ProductNonNegative(cfg.rate, send.at - own.at);
  }

  /** Both reservations of a passing request were granted, and it waits for the longer one. */
  lemma PassWaitsLonger(c: Configs, s: Limits, r: Request, perChat: bool)
    requires c.Valid() && Acquired(c, s, r).1.Passed? && (perChat ==> r.chat.Some?)
    ensures var own := Take(Cfg(c, perChat), Found(c, s, r, perChat), r.ClockOf(perChat), c.maxWait as real).1;
            own.Granted? && own.waitMs <= Acquired(c, s, r).1.waitMs <= c.maxWait
  {
    WaitAccepted(c.bot, Found(c, s, r, false), r.now, c.maxWait);
    if r.chat.Some? {
      WaitAccepted(c.chat, Found(c, s, r, true), r.chatNow, c.maxWait);
    }
  }

  /** The wait the bot's limiter asks for, or the chat's: the least that is enough for a token. */
  ghost predicate Needs(c: Configs, s: Limits, r: Request, perChat: bool, n: int)
    requires c.Valid() && (perChat ==> r.chat.Some?)
  {
    LeastWait(Cfg(c, perChat), Found(c, s, r, perChat), n)
  }

  /**
   * Whatever the limiters hold: the bot's wait decides first, then the chat's, each refused if and only if it is longer
   * than `maxWait`; a request that passes waits exactly as long as its buckets need, so not at all if they have tokens.
   */
  lemma WaitIsDecidedRight(c: Configs, s: Limits, r: Request)
    returns (bot: int, chat: int)
    requires c.Valid()
    ensures Needs(c, s, r, false, bot) && (r.chat.Some? ==> Needs(c, s, r, true, chat))
    ensures Acquired(c, s, r).1 ==
            if bot > c.maxWait then BotLimited(bot)
            else if r.chat.Some? && chat > c.maxWait then ChatLimited(chat)
            else Passed(if r.chat.Some? && chat > bot then chat else bot)
    ensures Found(c, s, r, false) >= 1.0 && (r.chat.Some? ==> Found(c, s, r, true) >= 1.0) && c.maxWait >= 0 ==>
              Acquired(c, s, r).1 == Passed(0)
  {
    hide Level, MakeRoom, Take;
    bot := Ceil(WaitFor(c.bot, Found(c, s, r, false) - 1.0));
    WaitIsLeast(c.bot, Found(c, s, r, false), r.now, c.maxWait);
    if r.chat.Some? {
      chat := Ceil(WaitFor(c.chat, Found(c, s, r, true) - 1.0));
      WaitIsLeast(c.chat, Found(c, s, r, true), r.chatNow, c.maxWait);
    } else {
      chat := 0;
    }
  }

  /** A passing request waits no longer than it must: a millisecond less would be early in one of its two streams. */
  lemma WaitIsNeeded(c: Configs, s: Limits, r: Request) returns (perChat: bool)
    requires c.Valid() && Acquired(c, s, r).1.Passed?
    ensures perChat ==> r.chat.Some?
    ensures
      var wait, position := Acquired(c, s, r).1.waitMs, PassOf(c, s, r, perChat).position;
      && OnTime(Cfg(c, perChat), Send(r.ClockOf(perChat) + wait as real, position), 1.0)
      && (wait > 0 ==> Earned(Cfg(c, perChat), r.ClockOf(perChat) + (wait - 1) as real) < position)
  {
    var bot, chat := WaitIsDecidedRight(c, s, r);
    perChat := r.chat.Some? && chat > bot;
    FoundPosition(c, s, r, perChat);
    hide *;
    LeastWaitIsOnTime(Cfg(c, perChat), Found(c, s, r, perChat), r.ClockOf(perChat), Acquired(c, s, r).1.waitMs);
  }

  lemma FoundPosition(c: Configs, s: Limits, r: Request, perChat: bool)
    requires c.Valid() && Acquired(c, s, r).1.Passed? && (perChat ==> r.chat.Some?)
    ensures PassOf(c, s, r, perChat).position ==
            PositionOf(Cfg(c, perChat), Found(c, s, r, perChat), r.ClockOf(perChat))
    ensures Found(c, s, r, perChat) <= Cfg(c, perChat).burst && Cfg(c, perChat).Valid()
  {
    hide Acquired, MakeRoom;
  }

  lemma LeastWaitIsOnTime(cfg: Config, level: real, now: real, wait: int)
    requires cfg.Valid() && level <= cfg.burst && LeastWait(cfg, level, wait)
    ensures OnTime(cfg, Send(now + wait as real, PositionOf(cfg, level, now)), 1.0)
    ensures wait > 0 ==> Earned(cfg, now + (wait - 1) as real) < PositionOf(cfg, level, now)
  {
    Distribute(cfg.rate, now, wait as real);
    Distribute(cfg.rate, now, (wait - 1) as real);
    ProductNonNegative(cfg.rate, 1.0);
    assert now + wait as real - 1.0 == now + (wait - 1) as real;
  }

  /**
   * What the request leaves in the bucket of `key`: as before, moved on by a reservation, or by one that was undone.
   */
  ghost predicate LeftBy(cfg: Config, m: Buckets, m': Buckets, e: Option<Event>, key: string, maxWait: real,
                         undone: bool)
    requires cfg.Valid() && (e.Some? ==> e.value.ReserveAt?)
  {
    if e.None? then m' == m
    else
      var room := MakeRoom(cfg, m, e.value.key, e.value.now);
      if e.value.key != key then m'.Get(key) == room.Get(key)
      else
        var (b, answer) := Take(cfg, Level(cfg, room.Get(key), e.value.now), e.value.now, maxWait);
        m'.Get(key) == Some(if answer.Granted? && undone then Returned(cfg, b) else b)
  }

  lemma RoomIsValid(cfg: Config, m: Buckets, key: string, now: real)
    requires m.Valid()
    ensures MakeRoom(cfg, m, key, now).Valid()
  {
    SweepRemovesIdle(cfg, m, m.keys, now, key);
    hide Sweep;
  }

  lemma ReservedLeaves(cfg: Config, m: Buckets, e: Event, key: string)
    requires cfg.Valid() && m.Valid() && e.ReserveAt?
    ensures var m' := Reserved(cfg, m, e.key, e.now, e.maxWait).0;
            && m'.Valid() && LeftBy(cfg, m, m', Some(e), key, e.maxWait, false)
            && (Reserved(cfg, m, e.key, e.now, e.maxWait).1.Refused? ==>
                LeftBy(cfg, m, m', Some(e), key, e.maxWait, true))
            && (Reserved(cfg, m, e.key, e.now, e.maxWait).1.Granted? ==>
                  Released(cfg, m', e.key).Valid() &&
                    LeftBy(cfg, m, Released(cfg, m', e.key), Some(e), key, e.maxWait, true))
  {
    RoomIsValid(cfg, m, e.key, e.now);
    hide Level, Returned, MakeRoom, Take;
  }

  lemma BucketAfter(c: Configs, s: Limits, r: Request, key: string, perChat: bool)
    requires c.Valid() && s.Valid()
    ensures Acquired(c, s, r).0.Valid()
    ensures LeftBy(Cfg(c, perChat), Side(s, perChat), Side(Acquired(c, s, r).0, perChat),
                   Reservation(c, s, r, perChat), key, c.maxWait as real, !Acquired(c, s, r).1.Passed?)
  {
    hide Level, Take, Returned, Released, Reserved, MakeRoom;
    ReservedLeaves(c.bot, s.bot, ReserveAt(r.bot, r.now, c.maxWait as real), key);
    if r.chat.Some? {
      ReservedLeaves(c.chat, s.chat, ReserveAt(r.chat.value, r.chatNow, c.maxWait as real), key);
    }
  }

  /** A reservation advances the bucket of `key` if it sticks, and otherwise gives nothing away. */
  lemma LeftSpent(cfg: Config, m: Buckets, m': Buckets, e: Option<Event>, key: string, now: real, w: real, undone: bool,
                  u: real)
    requires cfg.Valid() && m.Valid() &&
             (e.Some? ==> e.value.ReserveAt? && e.value.now == now && Spares(cfg, m, e.value, key))
    requires LeftBy(cfg, m, m', e, key, w, undone)
    requires Spent(cfg, m.Get(key), now, u) && (m.Get(key).Some? ==> m.Get(key).value.updatedAt <= now)
    ensures m'.Get(key).Some? ==> m'.Get(key).value.updatedAt <= now
    ensures e.None? || e.value.key != key || undone ==> Spent(cfg, m'.Get(key), now, u)
    ensures e.Some? && e.value.key == key && !undone ==>
              var level := Level(cfg, MakeRoom(cfg, m, key, now).Get(key), now);
              && level <= cfg.burst
              && (Take(cfg, level, now, w).1.Refused? ==> Spent(cfg, m'.Get(key), now, u))
              && (Take(cfg, level, now, w).1.Granted? ==>
                    PositionOf(cfg, level, now) >= u + 1.0 && Spent(cfg, m'.Get(key), now, PositionOf(cfg, level, now)))
  {
    if e.Some? {
      SparedRoomSpent(cfg, m, e.value, key, u);
      var b := MakeRoom(cfg, m, e.value.key, now).Get(key);
      hide MakeRoom, Level, Spent;
      if e.value.key == key {
        LevelCapped(cfg, b, now);
        GrantAdvances(cfg, b, now, w, u);
      }
    }
  }

  /** One request advances the bucket of `key` past a pass, and otherwise gives nothing away. */
  lemma StepSpent(c: Configs, s: Limits, r: Request, key: string, perChat: bool, since: real, lag: real, u: real)
    requires c.Valid() && s.Valid() && since <= r.now <= r.chatNow <= r.now + lag
    requires Side(s, perChat).Get(key).Some? ==> Side(s, perChat).Get(key).value.updatedAt <= since
    requires Spent(Cfg(c, perChat), Side(s, perChat).Get(key), since, u)
    requires var e := Reservation(c, s, r, perChat); e.Some? ==> Spares(Cfg(c, perChat), Side(s, perChat), e.value, key)
    ensures var (s', outcome) := Acquired(c, s, r);
            && s'.Valid()
            && (Side(s', perChat).Get(key).Some? ==> Side(s', perChat).Get(key).value.updatedAt <= r.chatNow)
            && if Concerns(r, key, perChat) && outcome.Passed? then
                 && PassOf(c, s, r, perChat).position >= u + 1.0
                 && OnTime(Cfg(c, perChat), PassOf(c, s, r, perChat), c.maxWait as real + lag)
                 && Spent(Cfg(c, perChat), Side(s', perChat).Get(key), r.chatNow, PassOf(c, s, r, perChat).position)
               else Spent(Cfg(c, perChat), Side(s', perChat).Get(key), r.chatNow, u)
  {
    hide Level, Spent, OnTime, Take, MakeRoom, Released, Reserved, LeftBy, Spares, PositionOf;
    var cfg, side, e := Cfg(c, perChat), Side(s, perChat), Reservation(c, s, r, perChat);
    var (s', outcome) := Acquired(c, s, r);
    BucketAfter(c, s, r, key, perChat);
    var now := r.ClockOf(perChat);
    SpentLater(cfg, side.Get(key), since, now, u);
    LeftSpent(cfg, side, Side(s', perChat), e, key, now, c.maxWait as real, !outcome.Passed?, u);
    if Concerns(r, key, perChat) && outcome.Passed? {
      PassWaitsLonger(c, s, r, perChat);
      PassIsOnTime(cfg, Found(c, s, r, perChat), now, c.maxWait, lag, PassOf(c, s, r, perChat));
      if Take(cfg, Found(c, s, r, perChat), now, c.maxWait as real).1.Granted? {
        SpentLater(cfg, Side(s', perChat).Get(key), now, r.chatNow, PassOf(c, s, r, perChat).position);
      }
    } else {
      SpentLater(cfg, Side(s', perChat).Get(key), now, r.chatNow, u);
    }
  }

  lemma SpentLater(cfg: Config, b: Option<Bucket>, since: real, now: real, u: real)
    requires Spent(cfg, b, since, u) && since <= now
    ensures Spent(cfg, b, now, u)
  {
  }

  lemma SparedRoomSpent(cfg: Config, m: Buckets, e: Event, key: string, u: real)
    requires cfg.Valid() && m.Valid() && e.ReserveAt? && Spares(cfg, m, e, key)
    requires m.Get(key).Some? ==> m.Get(key).value.updatedAt <= e.now
    requires Spent(cfg, m.Get(key), e.now, u)
    ensures var b := MakeRoom(cfg, m, e.key, e.now).Get(key);
            Spent(cfg, b, e.now, u) && (b.Some? ==> b.value.updatedAt <= e.now)
  {
    MakeRoomKeepsOthers(cfg, m, e, key);
  }

  lemma {:induction false} PassesAreSpaced(c: Configs, s: Limits, rs: seq<Request>, key: string, perChat: bool,
                                           since: real, lag: real, u: real)
    requires c.Valid() && s.Valid() && Ordered(rs, since, lag) && NeverDropped(c, s, rs, key, perChat)
    requires Side(s, perChat).Get(key).Some? ==> Side(s, perChat).Get(key).value.updatedAt <= since
    requires Spent(Cfg(c, perChat), Side(s, perChat).Get(key), since, u)
    ensures Spaced(Passes(c, s, rs, key, perChat), u)
    ensures AllOnTime(Cfg(c, perChat), Passes(c, s, rs, key, perChat), c.maxWait as real + lag)
    decreases |rs|
  {
    hide Acquired, Level, Spent, OnTime, Spares, Reservation, Found, PassOf, Cfg;
    if rs != [] {
      var r := rs[0];
      var (s', outcome) := Acquired(c, s, r);
      StepSpent(c, s, r, key, perChat, since, lag, u);
      var rest := Passes(c, s', rs[1..], key, perChat);
      if Concerns(r, key, perChat) && outcome.Passed? {
        var send := PassOf(c, s, r, perChat);
        PassesAreSpaced(c, s', rs[1..], key, perChat, r.chatNow, lag, send.position);
        Prepend(Cfg(c, perChat), send, rest, u, c.maxWait as real + lag);
      } else {
        PassesAreSpaced(c, s', rs[1..], key, perChat, r.chatNow, lag, u);
        assert Passes(c, s, rs, key, perChat) == rest;
      }
    }
  }

  /**
   * Although a request waits for the larger of two delays, at most burst + rate * (W + maxWait) first attempts of one
   * bot, and of one chat, start in any window of W milliseconds, up to what comes in between the two clock readings.
   */
  lemma ComposedRateBound(c: Configs, s: Limits, rs: seq<Request>, key: string, perChat: bool, since: real, lag: real,
                          lo: real, width: real)
    requires c.Valid() && s.Valid() && Ordered(rs, since, lag) && NeverDropped(c, s, rs, key, perChat)
    requires Side(s, perChat).Get(key).Some? ==> Side(s, perChat).Get(key).value.updatedAt <= since
    requires width >= 0.0 && c.maxWait >= 0 && lag >= 0.0
    ensures StartsIn(Passes(c, s, rs, key, perChat), lo, lo + width) as real
         <= Cfg(c, perChat).burst + Cfg(c, perChat).rate * (width + (c.maxWait as real + lag))
  {
    hide Passes, NeverDropped, Spaced, AllOnTime, Level, StartsIn;
    var cfg := Cfg(c, perChat);
    FullBucketSpent(cfg, Side(s, perChat).Get(key), since);
    var u := since * cfg.rate - cfg.burst;
    PassesAreSpaced(c, s, rs, key, perChat, since, lag, u);
    SpacedBound(cfg, Passes(c, s, rs, key, perChat), lo, width, c.maxWait as real + lag, u);
  }
}
