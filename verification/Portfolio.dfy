/** Cash, holdings and the funding schedule, and the equity identity every run keeps. */
module Portfolio {
  import opened Results
  import opened Symbols
  import opened MapSums
  import opened Holdings
  import opened Funding

  datatype PortfolioState = PortfolioState(
    cash: real,
    totalFees: real,
    totalFunding: real,
    book: map<Symbol, Holding>,
    schedule: map<Symbol, int>)

  datatype Event =
    | Fill(symbol: Symbol, price: real, quantity: real, fee: real, multiplier: real)
    | Price(symbol: Symbol, price: real)
    | Rate(symbol: Symbol, time: int, rate: real)
    | Target(symbol: Symbol, quantity: real)
    | RemoveFlat(symbol: Symbol)

  function Start(cash: real): PortfolioState {
    PortfolioState(cash, 0.0, 0.0, map[], map[])
  }

  function HoldingOf(book: map<Symbol, Holding>, symbol: Symbol, multiplier: real): Holding {
    if symbol in book then book[symbol] else NewHolding(symbol, multiplier)
  }

  /** The position a fill applies to: looked up or opened, and re-multiplied when the contract changed. */
  function Prepared(book: map<Symbol, Holding>, symbol: Symbol, multiplier: real): Holding {
    var h := HoldingOf(book, symbol, multiplier);
    if h.multiplier != multiplier then h.WithMultiplier(multiplier) else h
  }

  predicate Removable(s: PortfolioState, symbol: Symbol) {
    symbol in s.book && !s.book[symbol].IsInvested() && !s.book[symbol].HasOpenTarget()
  }

  function Funded(s: PortfolioState, symbol: Symbol, delta: real): PortfolioState
    requires symbol in s.book
  {
    var h := s.book[symbol];
    s.(book := s.book[symbol := h.(totalFunding := h.totalFunding + delta)],
       cash := s.cash + delta,
       totalFunding := s.totalFunding + delta)
  }

  /** What one rate observation charges, and the schedule it leaves behind. */
  function Charge(s: PortfolioState, symbol: Symbol, time: int, rate: real): (r: (nat, int))
    requires symbol in s.book
  {
    var next := if symbol in s.schedule then s.schedule[symbol] else NextFundingTime(symbol, time);
    CatchUp(symbol, next, time)
  }

  /** The cash moved by so many charges: a positive rate is paid on a long position's value. */
  function Charged(charges: nat, rate: real, value: real): real {
    -(charges as real * (rate * value))
  }

  function Step(s: PortfolioState, e: Event): PortfolioState {
    match e
    case Fill(symbol, price, quantity, fee, multiplier) =>
      var h := Prepared(s.book, symbol, multiplier);
      s.(book := s.book[symbol := h.Filled(price, quantity, fee)],
         cash := s.cash + h.Settlement(price, quantity, fee),
         totalFees := s.totalFees + fee)
    case Price(symbol, price) =>
      if price <= 0.0 then s
      else s.(book := s.book[symbol := HoldingOf(s.book, symbol, InferMultiplier(symbol)).WithPrice(price)])
    case Rate(symbol, time, rate) =>
      if symbol !in s.book then s
      else if !s.book[symbol].IsInvested() || s.book[symbol].lastPrice == 0.0 then s.(schedule := s.schedule - {symbol})
      else
        var (charges, next) := Charge(s, symbol, time, rate);
        Funded(s, symbol, Charged(charges, rate, s.book[symbol].MarketValue())).(schedule := s.schedule[symbol := next])
    case Target(symbol, quantity) =>
      s.(book := s.book[symbol := HoldingOf(s.book, symbol, InferMultiplier(symbol)).(target := Some(quantity))])
    case RemoveFlat(symbol) =>
      if Removable(s, symbol) then s.(book := s.book - {symbol}, schedule := s.schedule - {symbol}) else s
  }

  function Run(s: PortfolioState, events: seq<Event>): PortfolioState {
    if events == [] then s else Step(Run(s, events[..|events| - 1]), events[|events| - 1])
  }

  // ---- The ledger the identity is stated against ----

  ghost function CashOf(h: Holding): real { h.CashMoved() }
  ghost function FeesOf(h: Holding): real { h.totalFees }
  ghost function FundingOf(h: Holding): real { h.totalFunding }
  ghost function RealizedOf(h: Holding): real { h.realizedPnl }
  ghost function UnrealizedOf(h: Holding): real { h.unrealizedPnl }
  ghost function ContributionOf(h: Holding): real { h.Contribution() }
  ghost function ProfitOf(h: Holding): real { h.realizedPnl + h.unrealizedPnl }
  ghost function CostsOf(h: Holding): real { h.totalFunding - h.totalFees }
  ghost function ValueOf(h: Holding): real { h.CashMoved() + h.Contribution() }

  ghost function TotalValue(s: PortfolioState): real { s.cash + Sum(s.book, ContributionOf) }

  /** What removed positions had realized, paid and received, and the cost re-based by multiplier changes. */
  datatype Ledger = Ledger(realized: real, fees: real, funding: real, rebased: real)

  /** The cost a fill re-bases: that of a paid-for open position whose multiplier it changes. */
  function Rebase(s: PortfolioState, e: Event): real {
    match e
    case Fill(symbol, _, _, _, multiplier) =>
      var h := HoldingOf(s.book, symbol, multiplier);
      if symbol.securityType.CryptoFuture? then 0.0 else h.averagePrice * h.quantity * (multiplier - h.multiplier)
    case _ => 0.0
  }

  ghost function Record(l: Ledger, s: PortfolioState, e: Event): Ledger {
    match e
    case Fill(_, _, _, _, _) => l.(rebased := l.rebased + Rebase(s, e))
    case RemoveFlat(symbol) =>
      if Removable(s, symbol) then
        l.(realized := l.realized + s.book[symbol].realizedPnl,
           fees := l.fees + s.book[symbol].totalFees,
           funding := l.funding + s.book[symbol].totalFunding)
      else l
    case _ => l
  }

  ghost function Recorded(s: PortfolioState, events: seq<Event>): Ledger {
    if events == [] then Ledger(0.0, 0.0, 0.0, 0.0)
    else
      var before := events[..|events| - 1];
      Record(Recorded(s, before), Run(s, before), events[|events| - 1])
  }

  ghost predicate WellFormed(s: PortfolioState) {
    forall symbol :: symbol in s.book ==> s.book[symbol].symbol == symbol && s.book[symbol].Marked()
  }

  ghost predicate Balanced(s: PortfolioState, start: real, l: Ledger) {
    && WellFormed(s)
    && s.cash == start + Sum(s.book, CashOf) + l.realized - l.fees + l.funding + l.rebased
    && s.totalFees == Sum(s.book, FeesOf) + l.fees
    && s.totalFunding == Sum(s.book, FundingOf) + l.funding
  }

  /** Every way a step can replace one position. */
  lemma Replace(s: PortfolioState, start: real, l: Ledger, symbol: Symbol, h: Holding, g: Holding,
                cash: real, fees: real, funding: real, rebased: real)
    requires Balanced(s, start, l)
    requires symbol in s.book ==> h == s.book[symbol]
    requires symbol !in s.book ==> h.CashMoved() == h.totalFees == h.totalFunding == 0.0
    requires g.symbol == symbol && g.Marked()
    requires g.totalFees == h.totalFees + fees && g.totalFunding == h.totalFunding + funding
    requires g.CashMoved() == h.CashMoved() + cash - rebased
    ensures Balanced(
      s.(book := s.book[symbol := g], cash := s.cash + cash, totalFees := s.totalFees + fees,
          totalFunding := s.totalFunding + funding),
      start, l.(rebased := l.rebased + rebased))
  {
    SumUpdate(s.book, CashOf, symbol, g);
    SumUpdate(s.book, FeesOf, symbol, g);
    SumUpdate(s.book, FundingOf, symbol, g);
  }

  lemma NewHoldingMovesNothing(symbol: Symbol, multiplier: real)
    ensures var h := NewHolding(symbol, multiplier);
            h.CashMoved() == h.totalFees == h.totalFunding == 0.0 && h.Marked()
  {
  }

  lemma FillKeepsBalance(s: PortfolioState, start: real, l: Ledger, e: Event)
    requires Balanced(s, start, l) && e.Fill?
    ensures Balanced(Step(s, e), start, Record(l, s, e))
  {
    var symbol, m := e.symbol, e.multiplier;
    var h := HoldingOf(s.book, symbol, m);
    NewHoldingMovesNothing(symbol, m);
    RemultiplyRebasesCost(h, m);
    var p := Prepared(s.book, symbol, m);
    assert p.CashMoved() == h.CashMoved() - Rebase(s, e);
    assert p.symbol == symbol && p.totalFees == h.totalFees && p.totalFunding == h.totalFunding;
    FillKeeps(p, e.price, e.quantity, e.fee);
    SettlementIsCashMoved(p, e.price, e.quantity, e.fee);
    Replace(s, start, l, symbol, h, p.Filled(e.price, e.quantity, e.fee), p.Settlement(e.price, e.quantity, e.fee),
        e.fee, 0.0, Rebase(s, e));
    assert s.totalFunding + 0.0 == s.totalFunding;
  }

  lemma FundedKeepsBalance(s: PortfolioState, start: real, l: Ledger, symbol: Symbol, delta: real)
    requires Balanced(s, start, l) && symbol in s.book
    ensures Balanced(Funded(s, symbol, delta), start, l)
  {
    var h := s.book[symbol];
    Replace(s, start, l, symbol, h, h.(totalFunding := h.totalFunding + delta), delta, 0.0, delta, 0.0);
    assert l.(rebased := l.rebased + 0.0) == l;
  }

  lemma RateKeepsBalance(s: PortfolioState, start: real, l: Ledger, e: Event)
    requires Balanced(s, start, l) && e.Rate?
    ensures Balanced(Step(s, e), start, l)
  {
    if e.symbol in s.book && s.book[e.symbol].IsInvested() && s.book[e.symbol].lastPrice != 0.0 {
      var (charges, next) := Charge(s, e.symbol, e.time, e.rate);
      var delta := Charged(charges, e.rate, s.book[e.symbol].MarketValue());
      FundedKeepsBalance(s, start, l, e.symbol, delta);
      assert Step(s, e) == Funded(s, e.symbol, delta).(schedule := s.schedule[e.symbol := next]);
    }
  }

  lemma RemoveKeepsBalance(s: PortfolioState, start: real, l: Ledger, e: Event)
    requires Balanced(s, start, l) && e.RemoveFlat?
    ensures Balanced(Step(s, e), start, Record(l, s, e))
  {
    if Removable(s, e.symbol) {
      SumRemove(s.book, CashOf, e.symbol);
      SumRemove(s.book, FeesOf, e.symbol);
      SumRemove(s.book, FundingOf, e.symbol);
    }
  }

  lemma StepKeepsBalance(s: PortfolioState, start: real, l: Ledger, e: Event)
    requires Balanced(s, start, l)
    ensures Balanced(Step(s, e), start, Record(l, s, e))
  {
    match e
    case Fill(_, _, _, _, _) => FillKeepsBalance(s, start, l, e);
    case Rate(_, _, _) => RateKeepsBalance(s, start, l, e);
    case RemoveFlat(_) => RemoveKeepsBalance(s, start, l, e);
    case Price(symbol, price) =>
      var h := HoldingOf(s.book, symbol, InferMultiplier(symbol));
      NewHoldingMovesNothing(symbol, InferMultiplier(symbol));
      if price > 0.0 {
        Replace(s, start, l, symbol, h, h.WithPrice(price), 0.0, 0.0, 0.0, 0.0);
      }
    case Target(symbol, quantity) =>
      var h := HoldingOf(s.book, symbol, InferMultiplier(symbol));
      NewHoldingMovesNothing(symbol, InferMultiplier(symbol));
      Replace(s, start, l, symbol, h, h.(target := Some(quantity)), 0.0, 0.0, 0.0, 0.0);
  }

  lemma {:induction false} RunKeepsBalance(start: real, events: seq<Event>)
    ensures Balanced(Run(Start(start), events), start, Recorded(Start(start), events))
  {
    if events != [] {
      var before := events[..|events| - 1];
      RunKeepsBalance(start, before);
      StepKeepsBalance(Run(Start(start), before), start, Recorded(Start(start), before), events[|events| - 1]);
    }
  }

  lemma ValueOfBalanced(s: PortfolioState, start: real, l: Ledger)
    requires Balanced(s, start, l)
    ensures TotalValue(s) == start + (Sum(s.book, RealizedOf) + l.realized) + Sum(s.book, UnrealizedOf)
                             - s.totalFees + s.totalFunding + l.rebased
  {
    forall symbol | symbol in s.book
      ensures ValueOf(s.book[symbol]) == ProfitOf(s.book[symbol]) + CostsOf(s.book[symbol])
    {
      ValueIsProfit(s.book[symbol]);
    }
    SumAdds(s.book, CashOf, ContributionOf, ValueOf);
    SumAdds(s.book, ProfitOf, CostsOf, ValueOf);
    SumAdds(s.book, RealizedOf, UnrealizedOf, ProfitOf);
    SumAdds(s.book, CostsOf, FeesOf, FundingOf);
  }

  /** Over every run, total value is starting cash plus realized and unrealized profit, less fees, plus
      funding; multiplier changes on open paid-for positions shift it by exactly the cost they re-base. */
  lemma EquityIdentity(start: real, events: seq<Event>)
    ensures var s, l := Run(Start(start), events), Recorded(Start(start), events);
            TotalValue(s) == start + (Sum(s.book, RealizedOf) + l.realized) + Sum(s.book, UnrealizedOf)
                             - s.totalFees + s.totalFunding + l.rebased
  {
    RunKeepsBalance(start, events);
    ValueOfBalanced(Run(Start(start), events), start, Recorded(Start(start), events));
  }

  /** Every fill of an invested position uses the multiplier the position has. */
  ghost predicate MultipliersFixed(s: PortfolioState, events: seq<Event>) {
    forall i :: 0 <= i < |events| ==> KeepsMultiplier(Run(s, events[..i]).book, events[i])
  }

  predicate KeepsMultiplier(book: map<Symbol, Holding>, e: Event) {
    e.Fill? && e.symbol in book && book[e.symbol].IsInvested() ==> book[e.symbol].multiplier == e.multiplier
  }

  lemma {:induction false} FixedMultipliersRebaseNothing(s: PortfolioState, events: seq<Event>)
    requires MultipliersFixed(s, events)
    ensures Recorded(s, events).rebased == 0.0
  {
    if events != [] {
      var n := |events| - 1;
      var before := events[..n];
      PrefixKeepsMultipliers(s, events);
      FixedMultipliersRebaseNothing(s, before);
      NothingRebased(Run(s, before), events[n]);
    }
  }

  lemma PrefixKeepsMultipliers(s: PortfolioState, events: seq<Event>)
    requires events != [] && MultipliersFixed(s, events)
    ensures MultipliersFixed(s, events[..|events| - 1])
    ensures KeepsMultiplier(Run(s, events[..|events| - 1]).book, events[|events| - 1])
  {
    var before := events[..|events| - 1];
    forall i | 0 <= i < |before| ensures KeepsMultiplier(Run(s, before[..i]).book, before[i]) {
      assert before[..i] == events[..i];
    }
  }

  lemma NothingRebased(s: PortfolioState, e: Event)
    requires KeepsMultiplier(s.book, e)
    ensures Rebase(s, e) == 0.0
  {
  }

  /** The plain identity, for runs that keep multipliers fixed while invested. */
  lemma EquityIdentityWithFixedMultipliers(start: real, events: seq<Event>)
    requires MultipliersFixed(Start(start), events)
    ensures var s, l := Run(Start(start), events), Recorded(Start(start), events);
            TotalValue(s)
            == start + (Sum(s.book, RealizedOf) + l.realized) + Sum(s.book, UnrealizedOf) - s.totalFees + s.totalFunding
  {
    EquityIdentity(start, events);
    FixedMultipliersRebaseNothing(Start(start), events);
  }

  lemma RebasesNothingIff(s: PortfolioState, e: Event)
    requires e.Fill?
    ensures var h := HoldingOf(s.book, e.symbol, e.multiplier);
            Rebase(s, e) == 0.0
            <==>
            e.symbol.securityType.CryptoFuture? || h.quantity == 0.0 || h.averagePrice == 0.0
            || h.multiplier == e.multiplier
  {
  }

  /** One more fill keeps the plain identity exactly when it re-bases no cost: the position is a crypto
      future, is flat, carries no cost, or keeps its multiplier. */
  lemma FillKeepsIdentityIff(start: real, events: seq<Event>, e: Event)
    requires e.Fill?
    requires Recorded(Start(start), events).rebased == 0.0
    ensures var before := Run(Start(start), events);
            var s, l := Step(before, e), Record(Recorded(Start(start), events), before, e);
            var h := HoldingOf(before.book, e.symbol, e.multiplier);
            TotalValue(s)
            == start + (Sum(s.book, RealizedOf) + l.realized) + Sum(s.book, UnrealizedOf) - s.totalFees + s.totalFunding
            <==>
            e.symbol.securityType.CryptoFuture? || h.quantity == 0.0 || h.averagePrice == 0.0
            || h.multiplier == e.multiplier
  {
    RunKeepsBalance(start, events);
    FillShiftsIdentityBy(Run(Start(start), events), start, Recorded(Start(start), events), e);
    RebasesNothingIff(Run(Start(start), events), e);
  }

  lemma FillShiftsIdentityBy(before: PortfolioState, start: real, l: Ledger, e: Event)
    requires e.Fill? && Balanced(before, start, l) && l.rebased == 0.0
    ensures var s, k := Step(before, e), Record(l, before, e);
            TotalValue(s) == start + (Sum(s.book, RealizedOf) + k.realized) + Sum(s.book, UnrealizedOf)
                             - s.totalFees + s.totalFunding + Rebase(before, e)
  {
    StepKeepsBalance(before, start, l, e);
    ValueOfBalanced(Step(before, e), start, Record(l, before, e));
  }

  /** Bought at 10 with a multiplier of 1 and added to with a multiplier of 2: the identity is off by the
      10 the first unit's cost was re-based by. */
  lemma MultiplierChangeBreaksIdentity(symbol: Symbol, start: real)
    requires symbol.securityType.Equity?
    ensures var events := [Fill(symbol, 10.0, 1.0, 0.0, 1.0), Fill(symbol, 10.0, 1.0, 0.0, 2.0)];
            var s, l := Run(Start(start), events), Recorded(Start(start), events);
            TotalValue(s) == start + (Sum(s.book, RealizedOf) + l.realized) + Sum(s.book, UnrealizedOf)
                             - s.totalFees + s.totalFunding + 10.0
  {
    var first, second := Fill(symbol, 10.0, 1.0, 0.0, 1.0), Fill(symbol, 10.0, 1.0, 0.0, 2.0);
    var events := [first, second];
    assert events[..1] == [first] && [first][..0] == [];
    var mid := Step(Start(start), first);
    assert Run(Start(start), [first]) == mid && Recorded(Start(start), [first]).rebased == 0.0;
    assert mid.book[symbol].averagePrice == 10.0 && mid.book[symbol].quantity == 1.0
           && mid.book[symbol].multiplier == 1.0;
    assert Rebase(mid, second) == 10.0;
    EquityIdentity(start, events);
  }
}
