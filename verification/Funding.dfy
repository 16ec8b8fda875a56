/** Funding times and the catch-up loop. Timestamps are nanoseconds since the Unix epoch. */
module Funding {
  import opened Division
  import opened Symbols

  const HOUR_NANOS := 3_600_000_000_000
  const DAY_NANOS := 86_400_000_000_000

  function NextHourlyFundingTime(t: int): int {
    t / HOUR_NANOS * HOUR_NANOS + HOUR_NANOS
  }

  /** The calendar rule: 08:00, 16:00, or midnight of the next UTC day. */
  function NextEightHourFundingTime(t: int): int {
    var date, hour := t / DAY_NANOS, t % DAY_NANOS / HOUR_NANOS;
    if hour >= 16 then (date + 1) * DAY_NANOS
    else if hour >= 8 then date * DAY_NANOS + 16 * HOUR_NANOS
    else date * DAY_NANOS + 8 * HOUR_NANOS
  }

  predicate Hourly(symbol: Symbol) {
    symbol.securityType.CryptoFuture? && symbol.hyperliquid
  }

  function NextFundingTime(symbol: Symbol, t: int): int {
    if Hourly(symbol) then NextHourlyFundingTime(t) else NextEightHourFundingTime(t)
  }

  function Period(symbol: Symbol): (p: int)
    ensures p > 0
  {
    if Hourly(symbol) then HOUR_NANOS else 8 * HOUR_NANOS
  }

  /** The calendar rule is the arithmetic one with an eight-hour period. */
  lemma EightHourRuleIsArithmetic(t: int)
    ensures NextEightHourFundingTime(t) == (t / (8 * HOUR_NANOS) + 1) * (8 * HOUR_NANOS)
  {
    var date, within := t / DAY_NANOS, t % DAY_NANOS;
    assert t == date * (3 * (8 * HOUR_NANOS)) + within;
    var third := within / (8 * HOUR_NANOS);
    assert t / (8 * HOUR_NANOS) == 3 * date + third;
  }

  /** The next funding time is the first period boundary strictly after `t`. */
  lemma NextFundingIsNextBoundary(symbol: Symbol, t: int)
    ensures NextFundingTime(symbol, t) == (t / Period(symbol) + 1) * Period(symbol)
    ensures t < NextFundingTime(symbol, t) <= t + Period(symbol)
  {
    if !Hourly(symbol) {
      EightHourRuleIsArithmetic(t);
    }
  }

  /** The `while rate.time >= next_application` loop: charges made, and where it leaves the schedule. */
  function CatchUp(symbol: Symbol, next: int, t: int): (r: (nat, int))
    decreases t - next
  {
    NextFundingIsNextBoundary(symbol, next);
    if t < next then (0, next)
    else
      var (n, after) := CatchUp(symbol, NextFundingTime(symbol, next), t);
      (n + 1, after)
  }

  /** From any period boundary, the loop charges once per boundary reached. */
  lemma {:induction false} CatchUpCounts(symbol: Symbol, k: int, t: int)
    ensures var (n, after) := CatchUp(symbol, k * Period(symbol), t);
            var p := Period(symbol);
            if t < k * p then n == 0 && after == k * p
            else n == t / p - k + 1 && after == (t / p + 1) * p
    decreases t - k * Period(symbol)
  {
    var p := Period(symbol);
    NextFundingIsNextBoundary(symbol, k * p);
    assert k * p / p == k;
    if t >= k * p {
      assert NextFundingTime(symbol, k * p) == (k + 1) * p;
      CatchUpCounts(symbol, k + 1, t);
      if t < (k + 1) * p {
        assert t / p == k by { Quotient(t, k, p); }
      }
    }
  }

  /** From midnight to the last instant of a day a perpetual future of Hyperliquid is charged 24 times, any other
      security three times. */
  lemma ChargesOfADay(symbol: Symbol, day: int)
    ensures CatchUp(symbol, day * DAY_NANOS, (day + 1) * DAY_NANOS - 1).0
            == if symbol.securityType.CryptoFuture? && symbol.hyperliquid then 24 else 3
  {
    var p, t := Period(symbol), (day + 1) * DAY_NANOS - 1;
    var n := DAY_NANOS / p;
    assert day * n * p == day * DAY_NANOS;
    CatchUpCounts(symbol, day * n, t);
    Quotient(t, day * n + n - 1, p);
  }

  /** At 9:30 on 21 May 2020, UTC, the next hourly funding is at 10:00 and the next eight-hourly one at 16:00. */
  lemma NextOfAMorning(symbol: Symbol)
    ensures NextFundingTime(symbol, 1_590_053_400_000_000_000)
            == if Hourly(symbol) then 1_590_055_200_000_000_000 else 1_590_076_800_000_000_000
  {
  }
}
