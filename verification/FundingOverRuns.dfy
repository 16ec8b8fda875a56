/** Funding of one position over whole portfolio runs: fills, marks, targets and other symbols' events may
    fall between the observations of its rate. */
module FundingOverRuns {
  import opened Division
  import opened Symbols
  import opened Holdings
  import opened Funding
  import opened Portfolio
  import opened FundingRuns

  predicate IsRateOf(e: Event, symbol: Symbol) { e.Rate? && e.symbol == symbol }

  /** The rate observations of the symbol in a run. */
  function ObservationsOf(events: seq<Event>, symbol: Symbol): seq<Observation> {
    if events == [] then [] else
      var before, e := ObservationsOf(events[..|events| - 1], symbol), events[|events| - 1];
      if IsRateOf(e, symbol) then before + [Observation(e.time, e.rate)] else before
  }

  /** The position keeps its entry in the book, and is open and marked whenever its rate is observed. In
      between it may be closed and opened again. */
  ghost predicate ObservedWhileOpen(s: PortfolioState, events: seq<Event>, symbol: Symbol) {
    && (forall i :: 0 <= i <= |events| ==> symbol in Run(s, events[..i]).book)
    && (forall i :: 0 <= i < |events| && IsRateOf(events[i], symbol) ==> Chargeable(Run(s, events[..i]), symbol))
  }

  /** The funding charges the steps of the run made for the symbol. */
  function Charges(s: PortfolioState, events: seq<Event>, symbol: Symbol): nat {
    if events == [] then 0 else
      var before, e := events[..|events| - 1], events[|events| - 1];
      Charges(s, before, symbol) +
      if IsRateOf(e, symbol) && symbol in Run(s, before).book then Charge(Run(s, before), symbol, e.time, e.rate).0
          else 0
  }

  /** The cash the symbol's funding moved: what the account gained in the steps that observed its rate. */
  function CashMovedByFunding(s: PortfolioState, events: seq<Event>, symbol: Symbol): real {
    if events == [] then 0.0 else
      var before, e := events[..|events| - 1], events[|events| - 1];
      CashMovedByFunding(s, before, symbol)
      + if IsRateOf(e, symbol) then Run(s, events).cash - Run(s, before).cash else 0.0
  }

  /** The boundaries an observation is the first to reach. */
  function FirstReached(p: int, before: seq<Observation>, o: Observation): int
    requires p > 0
  {
    if before == [] then 0 else Reached(p, before + [o]) - Reached(p, before)
  }

  /** What the boundaries cost: each observation pays for those it is the first to reach, at its own rate
      and at the value the position has at that moment. */
  ghost function OwedOverRun(s: PortfolioState, events: seq<Event>, symbol: Symbol): real
  {
    if events == [] then 0.0 else
      var before, e := events[..|events| - 1], events[|events| - 1];
      var seen := ObservationsOf(before, symbol);
      OwedOverRun(s, before, symbol) +
      if IsRateOf(e, symbol) && symbol in Run(s, before).book then
        Owed(Run(s, before).book[symbol].MarketValue(),
             Accrued(e.rate, FirstReached(Period(symbol), seen, Observation(e.time, e.rate))))
      else 0.0
  }

  // ---- One step ----

  /** Whatever else happens, short of dropping the position from the book, leaves the symbol's schedule and
      the funding the position has received. */
  lemma OtherEventsKeepFunding(s: PortfolioState, e: Event, symbol: Symbol)
    requires symbol in s.book && symbol in Step(s, e).book && !IsRateOf(e, symbol)
    ensures var t := Step(s, e);
            && (symbol in t.schedule <==> symbol in s.schedule)
            && (symbol in s.schedule ==> t.schedule[symbol] == s.schedule[symbol])
            && symbol in t.book && t.book[symbol].totalFunding == s.book[symbol].totalFunding
  {
    match e
    case Fill(x, price, quantity, fee, multiplier) =>
      FillKeeps(Prepared(s.book, x, multiplier), price, quantity, fee);
    case _ =>
  }

  /** Where the schedule stands after some observations. */
  ghost predicate Scheduled(s: PortfolioState, symbol: Symbol, seen: seq<Observation>) {
    if seen == [] then symbol !in s.schedule
    else symbol in s.schedule && s.schedule[symbol] == (Reached(Period(symbol), seen) + 1) * Period(symbol)
  }

  /** An observation charges for the boundaries it is the first to reach, at the position's present value. */
  lemma ObservationCharges(s: PortfolioState, symbol: Symbol, seen: seq<Observation>, o: Observation)
    requires Chargeable(s, symbol) && Scheduled(s, symbol, seen)
    ensures var p := Period(symbol);
            var t := Step(s, Rate(symbol, o.time, o.rate));
            var delta := Owed(s.book[symbol].MarketValue(), Accrued(o.rate, FirstReached(p, seen, o)));
            && Scheduled(t, symbol, seen + [o])
            && Charge(s, symbol, o.time, o.rate).0 == FirstReached(p, seen, o)
            && t.cash == s.cash + delta
            && symbol in t.book && t.book[symbol].totalFunding == s.book[symbol].totalFunding + delta
  {
    if seen == [] {
      FirstObservation(s, symbol, o);
      NextFundingIsNextBoundary(symbol, o.time);
      OwedAdds(s.book[symbol].MarketValue(), 0.0, 0.0);
      assert Accrued(o.rate, 0) == 0.0;
    } else {
      var k := Reached(Period(symbol), seen);
      OneMoreObservation(Period(symbol), seen, o);
      OneCharge(s, symbol, o, k);
      ChargeCount(s, symbol, o, k);
    }
  }

  lemma ChargeCount(s: PortfolioState, symbol: Symbol, o: Observation, k: int)
    requires symbol in s.book && symbol in s.schedule && s.schedule[symbol] == (k + 1) * Period(symbol)
    ensures Charge(s, symbol, o.time, o.rate).0
            == (if o.time / Period(symbol) > k then o.time / Period(symbol) - k else 0)
  {
    var p := Period(symbol);
    CatchUpCounts(symbol, k + 1, o.time);
    if o.time < (k + 1) * p {
      QuotientBelow(o.time, k, p);
    } else {
      QuotientAbove(o.time, k + 1, p);
    }
  }

  // ---- Whole runs ----

  /** What the run has done for the symbol's funding so far. */
  ghost predicate TelescopedOverRun(s: PortfolioState, events: seq<Event>, symbol: Symbol)
    requires symbol in s.book
  {
    var t, seen := Run(s, events), ObservationsOf(events, symbol);
    && Scheduled(t, symbol, seen)
    && Charges(s, events, symbol)
       == (if seen == [] then 0 else Reached(Period(symbol), seen) - seen[0].time / Period(symbol))
    && CashMovedByFunding(s, events, symbol) == OwedOverRun(s, events, symbol)
    && symbol in t.book && t.book[symbol].totalFunding == s.book[symbol].totalFunding + OwedOverRun(s, events, symbol)
  }

  /** Over any run that observes the position's rate only while it is open, whatever happens between the
      observations: the schedule stands on the first boundary after the newest observation, the charges number
      the boundaries from the first observation to the newest, and the cash moved and the position's funding
      are those charges, each at the rate and the market value of its own moment. Boundaries passed while the
      position was closed are charged with the others. */
  lemma {:induction false} FundingTelescopesOverRun(s: PortfolioState, events: seq<Event>, symbol: Symbol)
    requires symbol !in s.schedule && ObservedWhileOpen(s, events, symbol)
    ensures symbol in s.book && TelescopedOverRun(s, events, symbol)
  {
    StartsInBook(s, events, symbol);
    if events != [] {
      PrefixObservedWhileOpen(s, events, symbol);
      FundingTelescopesOverRun(s, events[..|events| - 1], symbol);
      if IsRateOf(events[|events| - 1], symbol) {
        OneMoreRate(s, events, symbol);
      } else {
        OneMoreOther(s, events, symbol);
      }
    }
  }

  lemma StartsInBook(s: PortfolioState, events: seq<Event>, symbol: Symbol)
    requires ObservedWhileOpen(s, events, symbol)
    ensures symbol in s.book && symbol in Run(s, events).book
  {
    assert Run(s, events[..0]) == s && events[..|events|] == events;
  }

  lemma PrefixObservedWhileOpen(s: PortfolioState, events: seq<Event>, symbol: Symbol)
    requires events != [] && ObservedWhileOpen(s, events, symbol)
    ensures var before := events[..|events| - 1];
            && ObservedWhileOpen(s, before, symbol) && symbol in Run(s, before).book
            && (IsRateOf(events[|events| - 1], symbol) ==> Chargeable(Run(s, before), symbol))
  {
    var before := events[..|events| - 1];
    forall i | 0 <= i <= |before| ensures symbol in Run(s, before[..i]).book {
      assert before[..i] == events[..i];
    }
    forall i | 0 <= i < |before| && IsRateOf(before[i], symbol) ensures Chargeable(Run(s, before[..i]), symbol) {
      assert before[..i] == events[..i];
    }
  }

  lemma OneMoreOther(s: PortfolioState, events: seq<Event>, symbol: Symbol)
    requires symbol in s.book && events != [] && !IsRateOf(events[|events| - 1], symbol)
    requires symbol in Run(s, events).book && TelescopedOverRun(s, events[..|events| - 1], symbol)
    ensures TelescopedOverRun(s, events, symbol)
  {
    OtherEventsKeepFunding(Run(s, events[..|events| - 1]), events[|events| - 1], symbol);
  }

  lemma OneMoreRate(s: PortfolioState, events: seq<Event>, symbol: Symbol)
    requires symbol in s.book && events != [] && IsRateOf(events[|events| - 1], symbol)
    requires Chargeable(Run(s, events[..|events| - 1]), symbol) && TelescopedOverRun(s, events[..|events| - 1], symbol)
    ensures TelescopedOverRun(s, events, symbol)
  {
    var before, e := events[..|events| - 1], events[|events| - 1];
    var mid, seen, o := Run(s, before), ObservationsOf(before, symbol), Observation(e.time, e.rate);
    ObservationCharges(mid, symbol, seen, o);
    RateUnfolds(s, events, symbol);
    ReachedSinceFirst(Period(symbol), seen, o);
  }

  /** What the last event, a rate of the symbol, adds to each account of the run. */
  lemma RateUnfolds(s: PortfolioState, events: seq<Event>, symbol: Symbol)
    requires events != [] && IsRateOf(events[|events| - 1], symbol) && symbol in Run(s, events[..|events| - 1]).book
    ensures var before, e := events[..|events| - 1], events[|events| - 1];
            var mid, o := Run(s, before), Observation(e.time, e.rate);
            && Run(s, events) == Step(mid, Rate(symbol, e.time, e.rate))
            && ObservationsOf(events, symbol) == ObservationsOf(before, symbol) + [o]
            && Charges(s, events, symbol) == Charges(s, before, symbol) + Charge(mid, symbol, e.time, e.rate).0
            && CashMovedByFunding(s, events, symbol)
               == CashMovedByFunding(s, before, symbol) + (Run(s, events).cash - mid.cash)
            && OwedOverRun(s, events, symbol) == OwedOverRun(s, before, symbol)
               + Owed(mid.book[symbol].MarketValue(), Accrued(e.rate,
                   FirstReached(Period(symbol), ObservationsOf(before, symbol), o)))
  {
  }

  lemma ReachedSinceFirst(p: int, seen: seq<Observation>, o: Observation)
    requires p > 0
    ensures Reached(p, seen + [o]) - (seen + [o])[0].time / p
            == FirstReached(p, seen, o) + if seen == [] then 0 else Reached(p, seen) - seen[0].time / p
  {
  }

  // ---- Consequences ----

  /** With one market value at every observation, the run owes that value times the rates and the boundaries
      each observation is the first to reach. */
  lemma {:induction false} ConstantValueOwes(s: PortfolioState, events: seq<Event>, symbol: Symbol, value: real)
    requires ValuedAt(s, events, symbol, value)
    ensures var seen := ObservationsOf(events, symbol);
            OwedOverRun(s, events, symbol)
            == if seen == [] then 0.0 else Owed(value, RateTimesBoundaries(Period(symbol), seen))
  {
    if events != [] {
      PrefixValuedAt(s, events, symbol, value);
      ConstantValueOwes(s, events[..|events| - 1], symbol, value);
      if IsRateOf(events[|events| - 1], symbol) {
        OwesOneMore(s, events, symbol, value);
      }
    }
  }

  /** Every observation of the symbol's rate finds the position at this market value. */
  ghost predicate ValuedAt(s: PortfolioState, events: seq<Event>, symbol: Symbol, value: real) {
    forall i :: 0 <= i < |events| && IsRateOf(events[i], symbol) ==> HasValue(Run(s, events[..i]), symbol, value)
  }

  ghost predicate HasValue(s: PortfolioState, symbol: Symbol, value: real) {
    symbol in s.book && s.book[symbol].MarketValue() == value
  }

  lemma PrefixValuedAt(s: PortfolioState, events: seq<Event>, symbol: Symbol, value: real)
    requires events != [] && ValuedAt(s, events, symbol, value)
    ensures var before := events[..|events| - 1];
            && ValuedAt(s, before, symbol, value)
            && (IsRateOf(events[|events| - 1], symbol) ==> HasValue(Run(s, before), symbol, value))
  {
    var before := events[..|events| - 1];
    forall i | 0 <= i < |before| && IsRateOf(before[i], symbol) ensures HasValue(Run(s, before[..i]), symbol, value) {
      assert before[..i] == events[..i];
    }
  }

  lemma OwesOneMore(s: PortfolioState, events: seq<Event>, symbol: Symbol, value: real)
    requires events != [] && IsRateOf(events[|events| - 1], symbol)
             && HasValue(Run(s, events[..|events| - 1]), symbol, value)
    requires var seen := ObservationsOf(events[..|events| - 1], symbol);
             OwedOverRun(s, events[..|events| - 1], symbol)
             == if seen == [] then 0.0 else Owed(value, RateTimesBoundaries(Period(symbol), seen))
    ensures OwedOverRun(s, events, symbol)
            == Owed(value, RateTimesBoundaries(Period(symbol), ObservationsOf(events, symbol)))
  {
    var before, e := events[..|events| - 1], events[|events| - 1];
    var seen, o := ObservationsOf(before, symbol), Observation(e.time, e.rate);
    OwedUnfolds(s, events, symbol, value);
    OwesNext(Period(symbol), seen, o, value, OwedOverRun(s, before, symbol), OwedOverRun(s, events, symbol));
  }

  /** What an observation that finds this market value adds. */
  lemma OwedUnfolds(s: PortfolioState, events: seq<Event>, symbol: Symbol, value: real)
    requires events != [] && IsRateOf(events[|events| - 1], symbol)
             && HasValue(Run(s, events[..|events| - 1]), symbol, value)
    ensures var before, e := events[..|events| - 1], events[|events| - 1];
            var seen, o := ObservationsOf(before, symbol), Observation(e.time, e.rate);
            && ObservationsOf(events, symbol) == seen + [o]
            && OwedOverRun(s, events, symbol)
               == OwedOverRun(s, before, symbol) + Owed(value, Accrued(o.rate, FirstReached(Period(symbol), seen, o)))
  {
    RateUnfolds(s, events, symbol);
  }

  lemma OwesNext(p: int, seen: seq<Observation>, o: Observation, value: real, owed: real, after: real)
    requires p > 0 && owed == if seen == [] then 0.0 else Owed(value, RateTimesBoundaries(p, seen))
    requires after == owed + Owed(value, Accrued(o.rate, FirstReached(p, seen, o)))
    ensures after == Owed(value, RateTimesBoundaries(p, seen + [o]))
  {
    if seen == [] {
      assert Accrued(o.rate, 0) == 0.0;
      OwedAdds(value, 0.0, 0.0);
    } else {
      OneMoreObservation(p, seen, o);
      OwedAdds(value, RateTimesBoundaries(p, seen), Accrued(o.rate, FirstReached(p, seen, o)));
    }
  }

  /** One unit bought at 10. */
  ghost predicate OneUnit(s: PortfolioState, symbol: Symbol) {
    && symbol in s.book && s.book[symbol].quantity == 1.0 && s.book[symbol].multiplier == 1.0
    && s.book[symbol].lastPrice == 10.0
  }

  function Buy(symbol: Symbol): Event { Fill(symbol, 10.0, 1.0, 0.0, 1.0) }

  function Sell(symbol: Symbol): Event { Fill(symbol, 10.0, -1.0, 0.0, 1.0) }

  lemma SellAndBuyBack(s: PortfolioState, symbol: Symbol)
    requires OneUnit(s, symbol)
    ensures var flat := Step(s, Sell(symbol));
            && symbol in flat.book && !flat.book[symbol].IsInvested() && OneUnit(Step(flat, Buy(symbol)), symbol)
  {
  }

  /** Observed at midnight, sold, bought back, and observed a day later. */
  function Interrupted(symbol: Symbol, rate: real): seq<Event> {
    [Rate(symbol, 0, rate), Sell(symbol), Buy(symbol), Rate(symbol, DAY_NANOS, rate)]
  }

  lemma InterruptedPrefixes(symbol: Symbol, rate: real)
    ensures var events := Interrupted(symbol, rate);
            && events[..0] == [] && events[..1][..0] == [] && events[..2][..1] == events[..1]
            && events[..3][..2] == events[..2] && events[..4][..3] == events[..3] && events[..4] == events
  {
  }

  lemma ObservedOneUnit(s: PortfolioState, symbol: Symbol, time: int, rate: real)
    requires OneUnit(s, symbol) && symbol !in s.schedule
    ensures OneUnit(Step(s, Rate(symbol, time, rate)), symbol)
  {
    FirstObservation(s, symbol, Observation(time, rate));
  }

  lemma InterruptedRun(s: PortfolioState, symbol: Symbol, rate: real)
    requires OneUnit(s, symbol) && symbol !in s.schedule
    ensures var events := Interrupted(symbol, rate);
            ObservedWhileOpen(s, events, symbol) && ValuedAt(s, events, symbol, 10.0)
  {
    var events := Interrupted(symbol, rate);
    InterruptedPrefixes(symbol, rate);
    ObservedOneUnit(s, symbol, 0, rate);
    var first := Step(s, events[0]);
    var flat := Step(first, events[1]);
    var again := Step(flat, events[2]);
    SellAndBuyBack(first, symbol);
    assert Run(s, events[..0]) == s && Run(s, events[..1]) == first;
    assert Run(s, events[..2]) == flat;
    assert Run(s, events[..3]) == again;
    ObservationKeepsEntry(again, events[3], symbol);
    assert Run(s, events[..4]) == Step(again, events[3]);
    forall i | 0 <= i <= 4 ensures symbol in Run(s, events[..i]).book {
    }
    forall i | 0 <= i < 4 && IsRateOf(events[i], symbol)
      ensures Chargeable(Run(s, events[..i]), symbol) && HasValue(Run(s, events[..i]), symbol, 10.0)
    {
      OneUnitIsWorthTen(Run(s, events[..i]), symbol);
    }
  }

  lemma ObservationKeepsEntry(s: PortfolioState, e: Event, symbol: Symbol)
    requires symbol in s.book && e.Rate?
    ensures symbol in Step(s, e).book
  {
  }

  lemma OneUnitIsWorthTen(s: PortfolioState, symbol: Symbol)
    requires OneUnit(s, symbol)
    ensures Chargeable(s, symbol) && HasValue(s, symbol, 10.0)
  {
  }

  lemma InterruptedObservations(symbol: Symbol, rate: real)
    requires !Hourly(symbol)
    ensures var seen := ObservationsOf(Interrupted(symbol, rate), symbol);
            && seen == [Observation(0, rate), Observation(DAY_NANOS, rate)]
            && Reached(Period(symbol), seen) == 3 && RateTimesBoundaries(Period(symbol), seen) == Accrued(rate, 3)
  {
    var events, p := Interrupted(symbol, rate), Period(symbol);
    InterruptedPrefixes(symbol, rate);
    assert ObservationsOf(events[..0], symbol) == [];
    assert ObservationsOf(events[..1], symbol) == [Observation(0, rate)];
    assert ObservationsOf(events[..2], symbol) == ObservationsOf(events[..3], symbol) == [Observation(0, rate)];
    var seen := [Observation(0, rate), Observation(DAY_NANOS, rate)];
    assert ObservationsOf(events, symbol) == [Observation(0, rate)] + [Observation(DAY_NANOS, rate)] == seen;
    OneMoreObservation(p, [Observation(0, rate)], Observation(DAY_NANOS, rate));
    assert DAY_NANOS / p == 3 && 0 / p == 0;
  }

  /** The position pays for the three eight-hour boundaries of that day, however long of it it was closed. */
  lemma FlatTimeIsCharged(s: PortfolioState, symbol: Symbol, rate: real)
    requires !Hourly(symbol) && OneUnit(s, symbol) && symbol !in s.schedule
    ensures Charges(s, Interrupted(symbol, rate), symbol) == 3
    ensures CashMovedByFunding(s, Interrupted(symbol, rate), symbol) == Owed(10.0, Accrued(rate, 3))
  {
    var events := Interrupted(symbol, rate);
    InterruptedRun(s, symbol, rate);
    InterruptedObservations(symbol, rate);
    FundingTelescopesOverRun(s, events, symbol);
    ConstantValueOwes(s, events, symbol, 10.0);
  }
}
