/** Request throttling in backend/server.py: the per-user sliding-window
    rate limiter (`check_rate_limit`) and the monthly generation quota
    (`check_usage_limit`). */
module Limits {
  import opened Wrappers
  import Lists

  /** Width of the sliding window, in seconds. */
  const RATE_WINDOW: real := 60.0
  /** Requests accepted per window. */
  const RATE_MAX: nat := 3

  datatype RateDecision = Allowed | TooManyRequests   // 429

  /** The stored request times still inside the window at `now`. */
  function Recent(history: seq<real>, now: real): seq<real> {
    Lists.Filter(history, (t: real) => now - t < RATE_WINDOW)
  }

  /** `check_rate_limit(user_email)`: `history` is the user's stored request
      times and `now` the clock; the result is the stored list afterwards and
      the decision. Stale times are dropped on every call, rejected or not. */
  function CheckRateLimit(history: seq<real>, now: real): (r: (seq<real>, RateDecision))
    // what is kept: every time inside the window, and nothing else but `now`
    ensures forall t | t in history && now - t < RATE_WINDOW :: t in r.0
    ensures forall t | t in r.0 && t != now :: t in history && now - t < RATE_WINDOW
    // rejected exactly when RATE_MAX requests already sit in the window
    ensures r.1 == TooManyRequests <==> |Recent(history, now)| >= RATE_MAX
    ensures r.1 == Allowed ==> |r.0| == |Recent(history, now)| + 1 && r.0[|r.0| - 1] == now
    ensures r.1 == TooManyRequests ==> now !in history ==> now !in r.0
    // the stored list never outgrows the limit
    ensures |history| <= RATE_MAX ==> |r.0| <= RATE_MAX
  {
    var kept := Recent(history, now);
    if |kept| >= RATE_MAX then (kept, TooManyRequests) else (kept + [now], Allowed)
  }

  /** Times inside the window at the end of the list survive the filter. */
  lemma RecentAppendInWindow(a: seq<real>, u: seq<real>, now: real)
    requires forall k | 0 <= k < |u| :: now - u[k] < RATE_WINDOW
    ensures Recent(a + u, now) == Recent(a, now) + u
  {
    Lists.FilterAppend(a, u, (t: real) => now - t < RATE_WINDOW);
    Lists.FilterKeepsAll(u, (t: real) => now - t < RATE_WINDOW);
  }

  /** Three accepted requests whose first lies less than a minute before a
      fourth make the limiter reject the fourth, whatever came before. */
  lemma {:induction false} FourthRequestInAMinuteIsRejected(h: seq<real>, t1: real, t2: real, t3: real, t4: real)
    requires t1 <= t2 <= t3 <= t4 && t4 - t1 < RATE_WINDOW
    requires CheckRateLimit(h, t1).1 == Allowed
    requires CheckRateLimit(CheckRateLimit(h, t1).0, t2).1 == Allowed
    requires CheckRateLimit(CheckRateLimit(CheckRateLimit(h, t1).0, t2).0, t3).1 == Allowed
    ensures CheckRateLimit(CheckRateLimit(CheckRateLimit(CheckRateLimit(h, t1).0, t2).0, t3).0, t4).1 == TooManyRequests
  {
    var h1 := CheckRateLimit(h, t1).0;
    var h2 := CheckRateLimit(h1, t2).0;
    var h3 := CheckRateLimit(h2, t3).0;
    var x1 := Recent(h, t1);
    assert h1 == x1 + [t1];
    RecentAppendInWindow(x1, [t1], t2);
    var x2 := Recent(x1, t2);
    assert h2 == x2 + [t1, t2];
    RecentAppendInWindow(x2, [t1, t2], t3);
    var x3 := Recent(x2, t3);
    assert h3 == x3 + [t1, t2, t3];
    RecentAppendInWindow(x3, [t1, t2, t3], t4);
  }

  /** The free plan's monthly quota, when no subscription document exists. */
  const FREE_MONTHLY_LIMIT: int := 3

  const SECONDS_PER_DAY: nat := 24 * 3600

  /** `datetime.now(timezone.utc)` in whole seconds, split the way the month
      window needs it: midnight on the 1st of the current month, the days
      since the 1st, and the seconds since midnight. */
  datatype Clock = Clock(monthStart: int, daysIntoMonth: nat, secondOfDay: nat)

  function Now(c: Clock): int {
    c.monthStart + c.daysIntoMonth * SECONDS_PER_DAY + c.secondOfDay
  }

  /** `datetime.now(timezone.utc).replace(day=1)`: the 1st of the month at
      the current time of day. */
  function FirstOfMonthAtNow(c: Clock): (t: int)
    ensures c.monthStart <= t <= Now(c)
    ensures c.daysIntoMonth == 0 ==> t == Now(c)
  {
    c.monthStart + c.secondOfDay
  }

  /** How many of the stored `created_at` times are at or after `from`. */
  function GenerationsSince(createdAt: seq<int>, from: int): (n: nat)
    ensures n <= |createdAt|
  {
    |Lists.Filter(createdAt, (t: int) => t >= from)|
  }

  /** Counts over two stretches of history add up. */
  lemma GenerationsSinceAppend(a: seq<int>, b: seq<int>, from: int)
    ensures GenerationsSince(a + b, from) == GenerationsSince(a, from) + GenerationsSince(b, from)
  {
    Lists.FilterAppend(a, b, (t: int) => t >= from);
  }

  /** Moving the window's start later never counts more. */
  lemma {:induction false} LaterStartCountsFewer(createdAt: seq<int>, early: int, late: int)
    requires early <= late
    ensures GenerationsSince(createdAt, late) <= GenerationsSince(createdAt, early)
  {
    if |createdAt| > 0 {
      LaterStartCountsFewer(createdAt[1..], early, late);
      assert createdAt == [createdAt[0]] + createdAt[1..];
      GenerationsSinceAppend([createdAt[0]], createdAt[1..], early);
      GenerationsSinceAppend([createdAt[0]], createdAt[1..], late);
    }
  }

  /** The quota fields of a `subscriptions` document. */
  datatype Subscription = Subscription(monthlyLimit: int, currentUsage: int)

  datatype UsageCheck =
    | WithinLimit(limit: int, usage: int)
    | LimitReached(limit: int, usage: int)   // 403

  /** The decision of `check_usage_limit(user)` once the free window starts
      at `windowStart`: a user without a subscription has the free quota and
      the generations stored since then; a subscriber's quota and usage are
      read from the subscription. */
  function CheckUsageLimitFrom(sub: Option<Subscription>, createdAt: seq<int>, windowStart: int): (r: UsageCheck)
    ensures sub.None? ==> r.limit == FREE_MONTHLY_LIMIT && r.usage == GenerationsSince(createdAt, windowStart)
    ensures sub.Some? ==> r.limit == sub.value.monthlyLimit && r.usage == sub.value.currentUsage
    ensures r.WithinLimit? <==> r.usage < r.limit
  {
    var (limit, usage) := if sub.None? then (FREE_MONTHLY_LIMIT, GenerationsSince(createdAt, windowStart) as int)
                          else (sub.value.monthlyLimit, sub.value.currentUsage);
    if usage >= limit then LimitReached(limit, usage) else WithinLimit(limit, usage)
  }

  /** `check_usage_limit(user)` as written: the free window starts on the
      1st of the month at the current time of day, not at midnight. */
  function CheckUsageLimitAsWritten(sub: Option<Subscription>, createdAt: seq<int>, c: Clock): (r: UsageCheck)
    ensures sub.None? ==> r.usage == GenerationsSince(createdAt, c.monthStart + c.secondOfDay)
    ensures sub.Some? ==> r == CheckUsageLimit(sub, createdAt, c)
    ensures r.WithinLimit? <==> r.usage < r.limit
  {
    CheckUsageLimitFrom(sub, createdAt, FirstOfMonthAtNow(c))
  }

  /** `check_usage_limit(user)` with the month window every other monthly
      count of the server uses: midnight on the 1st. */
  function CheckUsageLimit(sub: Option<Subscription>, createdAt: seq<int>, c: Clock): (r: UsageCheck)
    ensures sub.None? ==> r.limit == FREE_MONTHLY_LIMIT && r.usage == GenerationsSince(createdAt, c.monthStart)
    ensures sub.Some? ==> r.limit == sub.value.monthlyLimit && r.usage == sub.value.currentUsage
    ensures r.WithinLimit? <==> r.usage < r.limit
  {
    CheckUsageLimitFrom(sub, createdAt, c.monthStart)
  }

  /** The check as written is never stricter than the month window: it can
      only miss generations, never count extra ones. */
  lemma AsWrittenNeverCountsMore(sub: Option<Subscription>, createdAt: seq<int>, c: Clock)
    ensures CheckUsageLimitAsWritten(sub, createdAt, c).usage <= CheckUsageLimit(sub, createdAt, c).usage
    ensures CheckUsageLimit(sub, createdAt, c).WithinLimit? ==> CheckUsageLimitAsWritten(sub, createdAt, c).WithinLimit?
  {
    LaterStartCountsFewer(createdAt, c.monthStart, c.monthStart + c.secondOfDay);
  }

  /** On the 1st of the month the window as written starts at the current
      instant, so a free user passes whatever they generated earlier that
      day. */
  lemma {:induction false} FirstOfMonthForgetsTheMorning(createdAt: seq<int>, c: Clock)
    requires c.daysIntoMonth == 0
    requires forall k | 0 <= k < |createdAt| :: createdAt[k] < Now(c)
    ensures CheckUsageLimitAsWritten(None, createdAt, c) == WithinLimit(FREE_MONTHLY_LIMIT, 0)
  {
    var keep := (t: int) => t >= Now(c);
    assert forall t | t in createdAt :: !keep(t);
    assert Lists.Filter(createdAt, keep) == [] by {
      if |Lists.Filter(createdAt, keep)| > 0 {
        assert Lists.Filter(createdAt, keep)[0] in Lists.Filter(createdAt, keep);
      }
    }
  }

  /** A concrete case: three generations in the first minutes of the 1st,
      checked at one in the morning. The check as written lets a fourth
      through; the month window refuses it. */
  lemma FourthGenerationOnTheFirst()
    ensures var c := Clock(0, 0, 3600);
      && CheckUsageLimitAsWritten(None, [60, 120, 180], c).WithinLimit?
      && CheckUsageLimit(None, [60, 120, 180], c) == LimitReached(3, 3)
  {
    var c := Clock(0, 0, 3600);
    FirstOfMonthForgetsTheMorning([60, 120, 180], c);
    assert Lists.Filter([60, 120, 180], (t: int) => t >= 0) == [60, 120, 180] by {
      Lists.FilterKeepsAll([60, 120, 180], (t: int) => t >= 0);
    }
  }

  /** From a given usage, exactly `limit - usage` further generations pass
      the check when each one counts against the subscription's quota. */
  lemma QuotaCountdown(s: Subscription, k: nat, createdAt: seq<int>, c: Clock)
    ensures CheckUsageLimit(Some(s.(currentUsage := s.currentUsage + k)), createdAt, c).WithinLimit?
      <==> k < s.monthlyLimit - s.currentUsage
  {
  }

  /** A free user is refused from the fourth generation of the month on:
      once the generations `later` are made this month, the check passes
      exactly when fewer than three fall in the month in all. */
  lemma {:induction false} FreeUserGetsThree(createdAt: seq<int>, later: seq<int>, c: Clock)
    requires forall k | 0 <= k < |later| :: c.monthStart <= later[k]
    ensures CheckUsageLimit(None, createdAt + later, c).WithinLimit?
      <==> GenerationsSince(createdAt, c.monthStart) + |later| < FREE_MONTHLY_LIMIT
  {
    GenerationsSinceAppend(createdAt, later, c.monthStart);
    Lists.FilterKeepsAll(later, (t: int) => t >= c.monthStart);
  }
}
