/** One rate observation of an open position, and what a series of observations adds up to. */
module FundingRuns {
  import opened Division
  import opened Symbols
  import opened Funding
  import opened Portfolio

  datatype Observation = Observation(time: int, rate: real)

  /** The last period boundary any of the observations has reached. */
  function Reached(p: int, observations: seq<Observation>): int
    requires p > 0 && observations != []
  {
    var k := observations[|observations| - 1].time / p;
    if |observations| == 1 then k
    else
      var before := Reached(p, observations[..|observations| - 1]);
      if k > before then k else before
  }

  function Accrued(rate: real, boundaries: int): real { rate * boundaries as real }

  /** Each observation charges its own rate for the boundaries it is the first to reach. */
  function RateTimesBoundaries(p: int, observations: seq<Observation>): real
    requires p > 0 && observations != []
  {
    if |observations| == 1 then 0.0
    else
      var before := observations[..|observations| - 1];
      RateTimesBoundaries(p, before)
      + Accrued(observations[|observations| - 1].rate, Reached(p, observations) - Reached(p, before))
  }

  ghost predicate Chargeable(s: PortfolioState, symbol: Symbol) {
    symbol in s.book && s.book[symbol].IsInvested() && s.book[symbol].lastPrice != 0.0
  }

  /** `t` is `s` after funding of `delta` moved into the position, the cash and the total. */
  ghost predicate ChargedBy(s: PortfolioState, t: PortfolioState, symbol: Symbol, delta: real)
    requires symbol in s.book
  {
    && t.cash == s.cash + delta
    && t.totalFunding == s.totalFunding + delta
    && t.totalFees == s.totalFees
    && t.book == s.book[symbol := s.book[symbol].(totalFunding := s.book[symbol].totalFunding + delta)]
  }

  /** `t` follows `s` by one observation, `k` being the last boundary reached before it. */
  ghost predicate AfterCharge(s: PortfolioState, t: PortfolioState, symbol: Symbol, o: Observation, k: int)
    requires symbol in s.book
  {
    var p := Period(symbol);
    var reached := if o.time / p > k then o.time / p else k;
    && symbol in t.schedule && t.schedule[symbol] == (reached + 1) * p
    && ChargedBy(s, t, symbol, Owed(s.book[symbol].MarketValue(), Accrued(o.rate, reached - k)))
  }

  lemma OneCharge(s: PortfolioState, symbol: Symbol, o: Observation, k: int)
    requires Chargeable(s, symbol) && symbol in s.schedule && s.schedule[symbol] == (k + 1) * Period(symbol)
    ensures AfterCharge(s, Step(s, Rate(symbol, o.time, o.rate)), symbol, o, k)
  {
    var p := Period(symbol);
    CatchUpCounts(symbol, k + 1, o.time);
    if o.time < (k + 1) * p {
      QuotientBelow(o.time, k, p);
    } else {
      QuotientAbove(o.time, k + 1, p);
    }
    var (charges, next) := Charge(s, symbol, o.time, o.rate);
    var mv := s.book[symbol].MarketValue();
    assert Charged(charges, o.rate, mv) == -(mv * (o.rate * charges as real));
  }

  /** What a position of this value pays when its rate times the boundaries passed add up to `accrued`. */
  ghost function Owed(value: real, accrued: real): real { -(value * accrued) }

  lemma OwedAdds(value: real, a: real, b: real)
    ensures Owed(value, a) + Owed(value, b) == Owed(value, a + b)
    ensures Owed(value, 0.0) == 0.0
  {
  }

  lemma FirstObservation(s: PortfolioState, symbol: Symbol, o: Observation)
    requires Chargeable(s, symbol) && symbol !in s.schedule
    ensures Step(s, Rate(symbol, o.time, o.rate))
            == s.(schedule := s.schedule[symbol := (o.time / Period(symbol) + 1) * Period(symbol)])
  {
    NextFundingIsNextBoundary(symbol, o.time);
    var (charges, next) := Charge(s, symbol, o.time, o.rate);
    assert charges == 0;
    var h := s.book[symbol];
    assert Charged(0, o.rate, h.MarketValue()) == 0.0;
    assert h.(totalFunding := h.totalFunding - 0.0) == h;
    assert s.book[symbol := h] == s.book;
  }

  lemma OneMoreObservation(p: int, before: seq<Observation>, o: Observation)
    requires p > 0 && before != []
    ensures var k := Reached(p, before);
            && Reached(p, before + [o]) == (if o.time / p > k then o.time / p else k)
            && RateTimesBoundaries(p, before + [o])
               == RateTimesBoundaries(p, before) + Accrued(o.rate, Reached(p, before + [o]) - k)
  {
  }

  lemma {:induction false} ReachedBounds(p: int, observations: seq<Observation>)
    requires p > 0 && observations != []
    ensures forall i :: 0 <= i < |observations| ==> observations[i].time / p <= Reached(p, observations)
    ensures exists i :: 0 <= i < |observations| && observations[i].time / p == Reached(p, observations)
  {
    if |observations| > 1 {
      var before := observations[..|observations| - 1];
      ReachedBounds(p, before);
      var i :| 0 <= i < |before| && before[i].time / p == Reached(p, before);
      assert observations[i] == before[i];
      assert observations[i].time / p == Reached(p, before);
      forall j | 0 <= j < |before| ensures observations[j].time / p <= Reached(p, before) {
        assert observations[j] == before[j];
      }
    }
    assert observations[|observations| - 1].time / p <= Reached(p, observations);
  }

  /** With one rate, the charge is floor(t_last / H) - floor(t_first / H) times that rate. */
  lemma {:induction false} UniformRateCharges(p: int, observations: seq<Observation>, rate: real)
    requires p > 0 && observations != []
    requires forall i :: 0 <= i < |observations| ==> observations[i].rate == rate
    ensures RateTimesBoundaries(p, observations) == Accrued(rate, Reached(p, observations) - observations[0].time / p)
  {
    if |observations| > 1 {
      var before := observations[..|observations| - 1];
      UniformRateCharges(p, before, rate);
      AccruedTogether(rate, Reached(p, before) - observations[0].time / p,
          Reached(p, observations) - Reached(p, before));
    } else {
      AccruedTogether(rate, 0, 0);
    }
  }

  lemma AccruedTogether(rate: real, a: int, b: int)
    ensures Accrued(rate, a) + Accrued(rate, b) == Accrued(rate, a + b)
  {
  }

  /** Observations in time order reach the boundary of the last one. */
  lemma OrderedObservationsReachTheLast(p: int, observations: seq<Observation>)
    requires p > 0 && observations != []
    requires forall i, j :: 0 <= i < j < |observations| ==> observations[i].time <= observations[j].time
    ensures Reached(p, observations) == observations[|observations| - 1].time / p
  {
    ReachedBounds(p, observations);
    var i :| 0 <= i < |observations| && observations[i].time / p == Reached(p, observations);
    QuotientMonotone(observations[i].time, observations[|observations| - 1].time, p);
  }
}
