/** What a run leaves in the books, in terms of its events alone. */
module PortfolioSums {
  import opened Results
  import opened Symbols
  import opened MapSums
  import opened Holdings
  import opened Portfolio

  // ---- Positions, fees and cash ----

  function QuantityOf(s: PortfolioState, symbol: Symbol): real {
    if symbol in s.book then s.book[symbol].quantity else 0.0
  }

  /** What the run bought of a symbol less what it sold. */
  function Bought(events: seq<Event>, symbol: Symbol): real {
    if events == [] then 0.0 else
      var e := events[|events| - 1];
      Bought(events[..|events| - 1], symbol) + if e.Fill? && e.symbol == symbol then e.quantity else 0.0
  }

  lemma StepBuys(s: PortfolioState, e: Event, symbol: Symbol)
    ensures QuantityOf(Step(s, e), symbol)
            == QuantityOf(s, symbol) + if e.Fill? && e.symbol == symbol then e.quantity else 0.0
  {
    if e.Fill? {
      FillKeeps(Prepared(s.book, e.symbol, e.multiplier), e.price, e.quantity, e.fee);
    }
  }

  /** Over every run, a position is what was bought less what was sold; one with no entry is flat. */
  lemma {:induction false} PositionsAreSumsOfFills(start: real, events: seq<Event>, symbol: Symbol)
    ensures QuantityOf(Run(Start(start), events), symbol) == Bought(events, symbol)
  {
    if events != [] {
      PositionsAreSumsOfFills(start, events[..|events| - 1], symbol);
      StepBuys(Run(Start(start), events[..|events| - 1]), events[|events| - 1], symbol);
    }
  }

  function FeesPaid(events: seq<Event>): real {
    if events == [] then 0.0 else
      FeesPaid(events[..|events| - 1]) + FeeOf(events[|events| - 1])
  }

  /** What a fill was worth, negative for a sale. */
  function Worth(e: Event): real { if e.Fill? then e.price * e.quantity * e.multiplier else 0.0 }

  function FeeOf(e: Event): real { if e.Fill? then e.fee else 0.0 }

  /** What the fills were worth, bought less sold. */
  function Spent(events: seq<Event>): real {
    if events == [] then 0.0 else Spent(events[..|events| - 1]) + Worth(events[|events| - 1])
  }

  ghost predicate PaidFor(events: seq<Event>) {
    forall e :: e in events && e.Fill? ==> !e.symbol.securityType.CryptoFuture?
  }

  /** The cash and the fees of a portfolio that has spent so much and paid such fees. */
  ghost predicate HasSpent(s: PortfolioState, start: real, spent: real, fees: real) {
    s.totalFees == fees && s.cash == start - spent - fees + s.totalFunding
  }

  lemma PaidSettlement(h: Holding, price: real, fill: real, fee: real)
    requires !h.symbol.securityType.CryptoFuture?
    ensures h.Settlement(price, fill, fee) == -(price * fill * h.multiplier) - fee
  {
  }

  lemma FillSettles(s: PortfolioState, e: Event)
    requires e.Fill?
    ensures var t := Step(s, e);
            && t.cash == s.cash + Prepared(s.book, e.symbol, e.multiplier).Settlement(e.price, e.quantity, e.fee)
            && t.totalFees == s.totalFees + e.fee && t.totalFunding == s.totalFunding
  {
  }

  lemma FillSpends(s: PortfolioState, e: Event, start: real, spent: real, fees: real, worth: real)
    requires WellFormed(s) && HasSpent(s, start, spent, fees) && e.Fill? && worth == Worth(e)
    requires !e.symbol.securityType.CryptoFuture?
    ensures HasSpent(Step(s, e), start, spent + worth, fees + e.fee)
  {
    PreparedIs(s, e);
    FillSettles(s, e);
    PaidSettlement(Prepared(s.book, e.symbol, e.multiplier), e.price, e.quantity, e.fee);
  }

  lemma PreparedIs(s: PortfolioState, e: Event)
    requires WellFormed(s) && e.Fill?
    ensures var p := Prepared(s.book, e.symbol, e.multiplier); p.symbol == e.symbol && p.multiplier == e.multiplier
  {
  }

  lemma OthersSpendNothing(s: PortfolioState, e: Event, start: real, spent: real, fees: real)
    requires HasSpent(s, start, spent, fees) && !e.Fill?
    ensures HasSpent(Step(s, e), start, spent, fees)
  {
  }

  lemma StepSpends(s: PortfolioState, e: Event, start: real, spent: real, fees: real)
    requires WellFormed(s) && HasSpent(s, start, spent, fees)
    requires e.Fill? ==> !e.symbol.securityType.CryptoFuture?
    ensures HasSpent(Step(s, e), start, spent + Worth(e), fees + FeeOf(e))
  {
    if e.Fill? {
      FillSpends(s, e, start, spent, fees, Worth(e));
    } else {
      OthersSpendNothing(s, e, start, spent, fees);
    }
  }

  lemma RunIsWellFormed(start: real, events: seq<Event>)
    ensures WellFormed(Run(Start(start), events))
  {
    RunKeepsBalance(start, events);
  }

  lemma {:induction false} RunSpends(start: real, events: seq<Event>)
    requires PaidFor(events)
    ensures HasSpent(Run(Start(start), events), start, Spent(events), FeesPaid(events))
  {
    if events != [] {
      var before, e := events[..|events| - 1], events[|events| - 1];
      assert e in events && forall d :: d in before ==> d in events;
      RunSpends(start, before);
      RunIsWellFormed(start, before);
      StepSpends(Run(Start(start), before), e, start, Spent(before), FeesPaid(before));
    }
  }

  /** Over every run of paid-for securities, cash is what it was at the start, less what the fills were worth and
      their fees, plus the funding received. */
  lemma CashIsWhatWasSpent(start: real, events: seq<Event>)
    requires PaidFor(events)
    ensures var s := Run(Start(start), events);
            && s.totalFees == FeesPaid(events)
            && s.cash == start - Spent(events) - FeesPaid(events) + s.totalFunding
  {
    RunSpends(start, events);
  }

  // ---- Marks and targets ----

  predicate Marks(e: Event, symbol: Symbol) {
    e.symbol == symbol && (e.Fill? || (e.Price? && e.price > 0.0))
  }

  /** The last price at which a symbol was filled or quoted above zero, zero before any. */
  function LastMark(events: seq<Event>, symbol: Symbol): real {
    if events == [] then 0.0 else
      var e := events[|events| - 1];
      if Marks(e, symbol) then e.price else LastMark(events[..|events| - 1], symbol)
  }

  function LastTarget(events: seq<Event>, symbol: Symbol): Option<real> {
    if events == [] then None else
      var e := events[|events| - 1];
      if e.Target? && e.symbol == symbol then Some(e.quantity) else LastTarget(events[..|events| - 1], symbol)
  }

  ghost predicate MarkedAs(s: PortfolioState, symbol: Symbol, price: real, target: Option<real>) {
    if symbol in s.book then s.book[symbol].lastPrice == price && s.book[symbol].target == target
    else price == 0.0 && target == None
  }

  lemma StepMarks(s: PortfolioState, e: Event, symbol: Symbol, price: real, target: Option<real>)
    requires MarkedAs(s, symbol, price, target) && !(e.RemoveFlat? && e.symbol == symbol)
    ensures MarkedAs(Step(s, e), symbol, if Marks(e, symbol) then e.price else price,
                     if e.Target? && e.symbol == symbol then Some(e.quantity) else target)
  {
    if e.Fill? {
      FillKeeps(Prepared(s.book, e.symbol, e.multiplier), e.price, e.quantity, e.fee);
    }
  }

  /** Over every run that does not remove the symbol's entry, its holding is marked at the last positive price
      filled or quoted and carries the last target set. */
  lemma {:induction false} HoldingsAreMarkedLast(start: real, events: seq<Event>, symbol: Symbol)
    requires forall e :: e in events ==> !(e.RemoveFlat? && e.symbol == symbol)
    ensures MarkedAs(Run(Start(start), events), symbol, LastMark(events, symbol), LastTarget(events, symbol))
  {
    if events != [] {
      var before, e := events[..|events| - 1], events[|events| - 1];
      assert e in events && forall d :: d in before ==> d in events;
      HoldingsAreMarkedLast(start, before, symbol);
      StepMarks(Run(Start(start), before), e, symbol, LastMark(before, symbol), LastTarget(before, symbol));
    }
  }

  ghost predicate FlatCostsNothing(s: PortfolioState) {
    forall x :: x in s.book && s.book[x].quantity == 0.0 ==> s.book[x].averagePrice == 0.0
  }

  lemma StepLeavesNoCost(s: PortfolioState, e: Event)
    requires FlatCostsNothing(s) && !(e.Fill? && e.quantity == 0.0)
    ensures FlatCostsNothing(Step(s, e))
  {
  }

  /** Over every run without fills of nothing, an entry that holds nothing has an average cost of zero. */
  lemma {:induction false} FlatHoldingsCostNothing(start: real, events: seq<Event>)
    requires forall e :: e in events ==> !(e.Fill? && e.quantity == 0.0)
    ensures FlatCostsNothing(Run(Start(start), events))
  {
    if events != [] {
      assert events[|events| - 1] in events && forall d :: d in events[..|events| - 1] ==> d in events;
      FlatHoldingsCostNothing(start, events[..|events| - 1]);
      StepLeavesNoCost(Run(Start(start), events[..|events| - 1]), events[|events| - 1]);
    }
  }

  predicate Idle(h: Holding) { h.quantity == 0.0 && (h.target == None || h.target == Some(0.0)) }

  /** Removing a flat holding drops its entry and its funding time exactly when it is neither held nor targeted at
      something, and nothing else. */
  lemma RemovesExactlyIdle(s: PortfolioState, symbol: Symbol, other: Symbol)
    ensures var t := Step(s, RemoveFlat(symbol));
            && (other in t.book <==> other in s.book && !(other == symbol && Idle(s.book[other])))
            && (other in t.book ==> t.book[other] == s.book[other])
            && (other in t.schedule <==>
                  other in s.schedule && !(other == symbol && symbol in s.book && Idle(s.book[other])))
            && t.cash == s.cash && t.totalFees == s.totalFees && t.totalFunding == s.totalFunding
  {
  }

  // ---- Fills in parts ----

  /** A fill taken in two parts at its price and multiplier leaves the portfolio that the whole fill does. */
  lemma FillInPartsAgrees(s: PortfolioState, symbol: Symbol, price: real, first: real, second: real, fee: real,
                          other: real, multiplier: real)
    requires (first > 0.0 && second > 0.0) || (first < 0.0 && second < 0.0)
    ensures Step(Step(s, Fill(symbol, price, first, fee, multiplier)), Fill(symbol, price, second, other, multiplier))
            == Step(s, Fill(symbol, price, first + second, fee + other, multiplier))
  {
    var h := Prepared(s.book, symbol, multiplier);
    var one := Step(s, Fill(symbol, price, first, fee, multiplier));
    FillKeeps(h, price, first, fee);
    assert Prepared(one.book, symbol, multiplier) == h.Filled(price, first, fee);
    SplitFillsAgree(h, price, first, second, fee, other);
    SettlementsAdd(h, price, first, second, fee, other);
  }

  lemma SettlementsAdd(h: Holding, price: real, first: real, second: real, fee: real, other: real)
    requires (first > 0.0 && second > 0.0) || (first < 0.0 && second < 0.0)
    ensures h.Settlement(price, first, fee) + h.Filled(price, first, fee).Settlement(price, second, other)
            == h.Settlement(price, first + second, fee + other)
  {
    FillKeeps(h, price, first, fee);
    if h.symbol.securityType.CryptoFuture? {
      ProfitsAdd(h, price, first, second, fee, other);
    } else {
      PaidSettlement(h, price, first, fee);
      PaidSettlement(h.Filled(price, first, fee), price, second, other);
      PaidSettlement(h, price, first + second, fee + other);
      Together(price, first, second, h.multiplier);
    }
  }

  lemma ProfitsAdd(h: Holding, price: real, first: real, second: real, fee: real, other: real)
    requires h.symbol.securityType.CryptoFuture? && ((first > 0.0 && second > 0.0) || (first < 0.0 && second < 0.0))
    ensures h.Settlement(price, first, fee) + h.Filled(price, first, fee).Settlement(price, second, other)
            == h.Settlement(price, first + second, fee + other)
  {
    FillKeeps(h, price, first, fee);
    SplitFillsAgree(h, price, first, second, fee, other);
  }

  lemma Together(price: real, first: real, second: real, m: real)
    ensures price * (first + second) * m == price * first * m + price * second * m
  {
  }

  // ---- Entries opened and rates observed while flat ----

  /** A price or a target opens an entry of one unit per contract, of a hundred for an option. */
  lemma EntriesOpenInferred(s: PortfolioState, e: Event)
    requires (e.Price? && e.price > 0.0) || e.Target?
    requires e.symbol !in s.book
    ensures e.symbol in Step(s, e).book
    ensures Step(s, e).book[e.symbol].multiplier == if e.symbol.securityType.OptionContract? then 100.0 else 1.0
  {
  }

  /** A rate observed while the position is flat or unpriced charges nothing and forgets when funding was due; one
      of an unknown symbol does nothing. */
  lemma FlatObservationForgets(s: PortfolioState, symbol: Symbol, time: int, rate: real)
    requires symbol in s.book ==> s.book[symbol].quantity == 0.0 || s.book[symbol].lastPrice == 0.0
    ensures Step(s, Rate(symbol, time, rate))
            == if symbol in s.book then s.(schedule := s.schedule - {symbol}) else s
  {
  }
}
