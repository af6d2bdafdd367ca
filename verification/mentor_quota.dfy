/**
 * The client-side mentor quota of `mobile/src/storage/mentorQuota.ts`: one
 * stored record per day holding the request count, the estimated token count
 * and the time of the last admitted request. A request is refused for length,
 * then for cooldown, then for budget; only an admitted request writes the
 * record. Storage, the clock and today's day key are parameters.
 */
module MentorQuota {
  import opened Wrappers
  import opened Text

  /** The stored record (`MentorQuotaState`). */
  datatype QuotaState = QuotaState(day: string, reqCount: int, tokenCount: int, lastAtMs: int)

  /** `MentorQuotaLimits`. */
  datatype Limits = Limits(
    dailyMaxRequests: int,
    cooldownMs: int,
    maxMessageChars: int,
    expectedOutputTokens: int,
    dailyMaxTokens: int)

  const MentorQuotaLimits: Limits := Limits(5, 60000, 1200, 220, 9000)

  /** The optional parameters of `consumeMentorQuota`. */
  datatype Overrides = Overrides(
    expectedOutputTokens: Option<int>,
    maxMessageChars: Option<int>,
    dailyMaxRequests: Option<int>,
    dailyMaxTokens: Option<int>,
    minIntervalMs: Option<int>)

  const NoOverrides: Overrides := Overrides(None, None, None, None, None)

  /** The limits one call of `consumeMentorQuota` applies. */
  datatype Policy = Policy(
    expectedOutputTokens: int,
    maxMessageChars: int,
    dailyMaxRequests: int,
    dailyMaxTokens: int,
    minIntervalMs: int)

  /** Missing overrides fall back to `MentorQuotaLimits`. */
  function Resolve(o: Overrides): (p: Policy)
    ensures o == NoOverrides ==>
      p == Policy(MentorQuotaLimits.expectedOutputTokens, MentorQuotaLimits.maxMessageChars,
                  MentorQuotaLimits.dailyMaxRequests, MentorQuotaLimits.dailyMaxTokens, MentorQuotaLimits.cooldownMs)
  {
    Policy(
      o.expectedOutputTokens.GetOr(MentorQuotaLimits.expectedOutputTokens),
      o.maxMessageChars.GetOr(MentorQuotaLimits.maxMessageChars),
      o.dailyMaxRequests.GetOr(MentorQuotaLimits.dailyMaxRequests),
      o.dailyMaxTokens.GetOr(MentorQuotaLimits.dailyMaxTokens),
      o.minIntervalMs.GetOr(MentorQuotaLimits.cooldownMs))
  }

  datatype Code = MessageTooLong | RateLimited | QuotaExceeded

  /** The machine-readable code carried by a `MentorQuotaError`. */
  function CodeName(c: Code): string {
    match c
    case MessageTooLong => "mentor_message_too_long"
    case RateLimited => "mentor_rate_limited"
    case QuotaExceeded => "mentor_quota_exceeded"
  }

  /** A `MentorQuotaError`: its code and its `details`. */
  datatype QuotaError = QuotaError(code: Code, limit: int, used: int)

  /** `estimateTokens`: `ceil(len / 3.5)`, computed exactly as `ceil(2 * len / 7)`. */
  function EstimateTokens(len: nat): (r: nat)
    ensures 7 * r >= 2 * len
    ensures 7 * (r - 1) < 2 * len || r == 0
  {
    (2 * len + 6) / 7
  }

  function Fresh(today: string): QuotaState {
    QuotaState(today, 0, 0, 0)
  }

  /** The record a call works from: the stored one if it is today's, otherwise zero counters. */
  function Effective(stored: Option<QuotaState>, today: string): (s: QuotaState)
    ensures s.day == today
    ensures stored.Some? && stored.value.day == today ==> s == stored.value
    ensures !(stored.Some? && stored.value.day == today) ==> s == Fresh(today)
  {
    match stored
    case Some(e) => if e.day == today then e else Fresh(today)
    case None => Fresh(today)
  }

  /** A previous admitted request is recorded and lies less than `interval` ago. */
  predicate InCooldown(s: QuotaState, now: int, interval: int) {
    s.lastAtMs != 0 && now - s.lastAtMs < interval
  }

  function Cost(msg: string, p: Policy): int {
    EstimateTokens(|msg|) + p.expectedOutputTokens
  }

  predicate OverBudget(s: QuotaState, cost: int, p: Policy) {
    s.reqCount + 1 > p.dailyMaxRequests || s.tokenCount + cost > p.dailyMaxTokens
  }

  /**
   * `consumeMentorQuota`: `Ok` carries the record written back; `Err` means
   * nothing was written. The checks run in order length, cooldown, budget.
   */
  function Consume(stored: Option<QuotaState>, message: string, now: int, today: string, p: Policy)
    : (r: Result<QuotaState, QuotaError>)
    ensures var msg := Trim(message);
            var s := Effective(stored, today);
            var cost := EstimateTokens(|msg|) + p.expectedOutputTokens;
      && (|msg| > p.maxMessageChars <==> r == Err(QuotaError(MessageTooLong, p.maxMessageChars, |msg|)))
      && (r.Err? && r.error.code == RateLimited <==>
            |msg| <= p.maxMessageChars && InCooldown(s, now, p.minIntervalMs))
      && (r.Err? && r.error.code == RateLimited ==> r.error == QuotaError(RateLimited, p.minIntervalMs, now - s.lastAtMs))
      && (r.Err? && r.error.code == QuotaExceeded <==>
            |msg| <= p.maxMessageChars && !InCooldown(s, now, p.minIntervalMs) && OverBudget(s, cost, p))
      && (r.Err? && r.error.code == QuotaExceeded ==> r.error == QuotaError(QuotaExceeded, p.dailyMaxTokens, s.tokenCount))
      && (r.Ok? ==> r.value == QuotaState(today, s.reqCount + 1, s.tokenCount + cost, now))
    ensures r.Ok? ==> r.value.reqCount <= p.dailyMaxRequests && r.value.tokenCount <= p.dailyMaxTokens
    ensures r.Ok? ==> r.value.day == today && r.value.lastAtMs == now
  {
    var msg := Trim(message);
    if |msg| > p.maxMessageChars then Err(QuotaError(MessageTooLong, p.maxMessageChars, |msg|))
    else
      var s := Effective(stored, today);
      if InCooldown(s, now, p.minIntervalMs) then Err(QuotaError(RateLimited, p.minIntervalMs, now - s.lastAtMs))
      else
        var cost := Cost(msg, p);
        if OverBudget(s, cost, p) then Err(QuotaError(QuotaExceeded, p.dailyMaxTokens, s.tokenCount))
        else Ok(QuotaState(today, s.reqCount + 1, s.tokenCount + cost, now))
  }

  /** The record in storage after a call: replaced on success, untouched on any refusal. */
  function StoreAfter(stored: Option<QuotaState>, r: Result<QuotaState, QuotaError>): Option<QuotaState> {
    if r.Ok? then Some(r.value) else stored
  }

  /** A too-long message is refused the same way whatever the stored record, the time or the day. */
  lemma TooLongIgnoresState(s1: Option<QuotaState>, s2: Option<QuotaState>, message: string,
                            now1: int, now2: int, d1: string, d2: string, p: Policy)
    requires |Trim(message)| > p.maxMessageChars
    ensures Consume(s1, message, now1, d1, p) == Consume(s2, message, now2, d2, p)
    ensures Consume(s1, message, now1, d1, p).Err?
  {
  }

  /** A record from another day behaves exactly like no record at all. */
  lemma StaleDayIsFresh(s: QuotaState, message: string, now: int, today: string, p: Policy)
    requires s.day != today
    ensures Consume(Some(s), message, now, today, p) == Consume(None, message, now, today, p)
  {
  }

  /** Right after an admitted request, a second one inside the cooldown window is rate limited. */
  lemma CooldownAfterSuccess(stored: Option<QuotaState>, m1: string, m2: string, t1: int, t2: int, today: string, p: Policy)
    requires Consume(stored, m1, t1, today, p).Ok?
    requires t1 != 0 && t1 <= t2 < t1 + p.minIntervalMs
    requires |Trim(m2)| <= p.maxMessageChars
    ensures Consume(StoreAfter(stored, Consume(stored, m1, t1, today, p)), m2, t2, today, p).Err?
    ensures Consume(StoreAfter(stored, Consume(stored, m1, t1, today, p)), m2, t2, today, p).error.code == RateLimited
  {
  }

  /** One attempt: a message sent at a time. */
  datatype Attempt = Attempt(message: string, now: int)

  /** A day's attempts in order: the final stored record and how many were admitted. */
  function Run(stored: Option<QuotaState>, attempts: seq<Attempt>, today: string, p: Policy): (Option<QuotaState>, nat)
    decreases |attempts|
  {
    if |attempts| == 0 then (stored, 0)
    else
      var r := Consume(stored, attempts[0].message, attempts[0].now, today, p);
      var (f, n) := Run(StoreAfter(stored, r), attempts[1..], today, p);
      (f, n + if r.Ok? then 1 else 0)
  }

  /**
   * Over one day, the request counter grows by exactly the number of admitted
   * requests and never passes the daily maximum (unless it started above it).
   */
  lemma {:induction false} RunCountsAdmitted(stored: Option<QuotaState>, attempts: seq<Attempt>, today: string, p: Policy)
    ensures var (f, n) := Run(stored, attempts, today, p);
      && Effective(f, today).reqCount == Effective(stored, today).reqCount + n
      && (n > 0 ==> Effective(f, today).reqCount <= p.dailyMaxRequests)
      && (n > 0 ==> Effective(f, today).tokenCount <= p.dailyMaxTokens)
      && (n == 0 ==> f == stored)
    decreases |attempts|
  {
    if |attempts| > 0 {
      var r := Consume(stored, attempts[0].message, attempts[0].now, today, p);
      RunCountsAdmitted(StoreAfter(stored, r), attempts[1..], today, p);
      if r.Ok? {
        assert Effective(StoreAfter(stored, r), today) == r.value;
      }
    }
  }

  /** Starting the day without a record, at most `dailyMaxRequests` requests are admitted. */
  lemma FreshDayAdmitsAtMostMax(attempts: seq<Attempt>, today: string, p: Policy)
    ensures Run(None, attempts, today, p).1 <= if p.dailyMaxRequests < 0 then 0 else p.dailyMaxRequests
  {
    RunCountsAdmitted(None, attempts, today, p);
  }

  /** What `getMentorQuotaStatus` reports. */
  datatype QuotaStatus = QuotaStatus(
    day: string,
    usedRequests: int,
    maxRequests: int,
    remainingRequests: int,
    nextAllowedInMs: int,
    usedTokens: int,
    maxTokens: int)

  /** `getMentorQuotaStatus`, always against `MentorQuotaLimits`. */
  function Status(stored: Option<QuotaState>, now: int, today: string): (r: QuotaStatus)
    ensures var s := Effective(stored, today);
      && r.day == today && r.usedRequests == s.reqCount && r.usedTokens == s.tokenCount
      && r.maxRequests == MentorQuotaLimits.dailyMaxRequests && r.maxTokens == MentorQuotaLimits.dailyMaxTokens
      && r.remainingRequests >= 0
      && (s.reqCount <= r.maxRequests ==> r.remainingRequests + s.reqCount == r.maxRequests)
      && (s.reqCount >= r.maxRequests ==> r.remainingRequests == 0)
      && (r.nextAllowedInMs == 0 <==> !InCooldown(s, now, MentorQuotaLimits.cooldownMs))
      && (r.nextAllowedInMs != 0 ==> r.nextAllowedInMs > 0 && now + r.nextAllowedInMs == s.lastAtMs + MentorQuotaLimits.cooldownMs)
      && (now >= s.lastAtMs ==> 0 <= r.nextAllowedInMs <= MentorQuotaLimits.cooldownMs)
  {
    var s := Effective(stored, today);
    var limits := MentorQuotaLimits;
    var next := if InCooldown(s, now, limits.cooldownMs) then limits.cooldownMs - (now - s.lastAtMs) else 0;
    var remaining := if limits.dailyMaxRequests - s.reqCount > 0 then limits.dailyMaxRequests - s.reqCount else 0;
    QuotaStatus(s.day, s.reqCount, limits.dailyMaxRequests, remaining, next, s.tokenCount, limits.dailyMaxTokens)
  }

  /**
   * The status agrees with the default-limit consumer: a wait is reported
   * exactly when a message of acceptable length would be rate limited, and no
   * request is admitted while zero requests remain.
   */
  lemma StatusAgreesWithConsume(stored: Option<QuotaState>, message: string, now: int, today: string)
    requires |Trim(message)| <= MentorQuotaLimits.maxMessageChars
    ensures var r := Consume(stored, message, now, today, Resolve(NoOverrides));
      && (Status(stored, now, today).nextAllowedInMs > 0 <==> r.Err? && r.error.code == RateLimited)
      && (Status(stored, now, today).remainingRequests == 0 ==> r.Err?)
  {
  }
}
