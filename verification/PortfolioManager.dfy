/** The mutable portfolio: its methods take the steps of the portfolio state machine. */
module PortfolioManager {
  import opened Results
  import opened Symbols
  import opened MapSums
  import opened Holdings
  import opened Funding
  import opened Portfolio

  class SecurityPortfolioManager {
    var cash: real
    var totalFees: real
    var totalFunding: real
    var holdings: map<Symbol, SecurityHolding>
    var schedule: map<Symbol, int>

    /** Each position is filed under its own symbol, so no two entries share an object. */
    ghost predicate Valid()
      reads this
    {
      forall symbol :: symbol in holdings ==> holdings[symbol].symbol == symbol
    }

    ghost function Book(): map<Symbol, Holding>
      reads this, holdings.Values
    {
      map symbol | symbol in holdings :: holdings[symbol].State()
    }

    ghost function State(): PortfolioState
      reads this, holdings.Values
    {
      PortfolioState(cash, totalFees, totalFunding, Book(), schedule)
    }

    constructor (startingCash: real)
      ensures Valid() && State() == Start(startingCash) && holdings == map[]
    {
      cash, totalFees, totalFunding := startingCash, 0.0, 0.0;
      holdings, schedule := map[], map[];
    }

    /** One position changed, or was opened; the rest of the book stands. */
    twostate lemma OneChanged(symbol: Symbol)
      requires Valid() && symbol in holdings
      requires forall other :: other in holdings && other != symbol ==>
                 other in old(holdings) && holdings[other] == old(holdings[other])
                     && holdings[other].State() == old(holdings[other].State())
      requires forall other :: other in old(holdings) ==> other in holdings
      ensures Book() == old(Book())[symbol := holdings[symbol].State()]
    {
    }

    /** `entry(sid).or_insert_with(...)`. */
    method Entry(symbol: Symbol, multiplier: real) returns (h: SecurityHolding)
      requires Valid()
      modifies this`holdings
      ensures Valid() && symbol in holdings && holdings[symbol] == h
      ensures fresh(holdings.Values - old(holdings.Values))
      ensures forall other :: other in holdings && other != symbol ==>
                other in old(holdings) && holdings[other] == old(holdings[other])
      ensures forall other :: other in old(holdings) ==> other in holdings && holdings[other] == old(holdings[other])
      ensures h.State() == HoldingOf(old(Book()), symbol, multiplier)
    {
      if symbol !in holdings {
        var created := new SecurityHolding(symbol, multiplier);
        holdings := holdings[symbol := created];
      }
      h := holdings[symbol];
    }

    /** The position a fill applies to, opened or re-multiplied as needed. */
    method Prepare(symbol: Symbol, multiplier: real) returns (h: SecurityHolding)
      requires Valid()
      modifies this`holdings, holdings.Values
      ensures Valid() && symbol in holdings && holdings[symbol] == h
      ensures fresh(holdings.Values - old(holdings.Values))
      ensures Book() == old(Book())[symbol := h.State()]
      ensures h.State() == Prepared(old(Book()), symbol, multiplier) && h.multiplier == multiplier
    {
      h := Entry(symbol, multiplier);
      if h.multiplier != multiplier {
        h.SetMultiplier(multiplier);
      }
      OneChanged(symbol);
    }

    /** Fill a position of the book; the realized profit it adds. */
    method FillEntry(symbol: Symbol, price: real, quantity: real, fee: real) returns (profit: real)
      requires Valid() && symbol in holdings
      modifies holdings[symbol]
      ensures Book() == old(Book())[symbol := old(holdings[symbol].State()).Filled(price, quantity, fee)]
      ensures profit == old(holdings[symbol].State()).Filled(price, quantity, fee).realizedPnl
                        - old(holdings[symbol].realizedPnl)
    {
      var h := holdings[symbol];
      var before := h.realizedPnl;
      h.ApplyFill(price, quantity, fee);
      profit := h.realizedPnl - before;
      assert h.realizedPnl == h.State().realizedPnl;
      OneChanged(symbol);
    }

    /** Fill a position of the book and settle it in cash. */
    method Settle(symbol: Symbol, price: real, quantity: real, fee: real)
      requires Valid() && symbol in holdings
      modifies this`cash, this`totalFees, holdings[symbol]
      ensures Book() == old(Book())[symbol := old(holdings[symbol].State()).Filled(price, quantity, fee)]
      ensures cash == old(cash) + old(holdings[symbol].State()).Settlement(price, quantity, fee)
      ensures totalFees == old(totalFees) + fee
    {
      var notional := price * quantity * holdings[symbol].multiplier;
      var profit := FillEntry(symbol, price, quantity, fee);
      cash := cash + if symbol.securityType.CryptoFuture? then profit - fee else -notional - fee;
      totalFees := totalFees + fee;
    }

    /** `apply_fill_with_multiplier`. */
    method ApplyFill(symbol: Symbol, price: real, quantity: real, fee: real, multiplier: real)
      requires Valid()
      modifies this, holdings.Values
      ensures Valid() && fresh(holdings.Values - old(holdings.Values))
      ensures State() == Step(old(State()), Fill(symbol, price, quantity, fee, multiplier))
    {
      ghost var before := State();
      var h := Prepare(symbol, multiplier);
      ghost var p := h.State();
      ghost var mid := State();
      Settle(symbol, price, quantity, fee);
      FillIsStep(before, mid, symbol, price, quantity, fee, multiplier, p, State());
    }

    method UpdatePrices(symbol: Symbol, price: real)
      requires Valid()
      modifies this, holdings.Values
      ensures Valid() && fresh(holdings.Values - old(holdings.Values))
      ensures State() == Step(old(State()), Price(symbol, price))
    {
      if price <= 0.0 { return; }
      var h := Entry(symbol, InferMultiplier(symbol));
      h.UpdatePrice(price);
      OneChanged(symbol);
    }

    method SetTarget(symbol: Symbol, quantity: real)
      requires Valid()
      modifies this, holdings.Values
      ensures Valid() && fresh(holdings.Values - old(holdings.Values))
      ensures State() == Step(old(State()), Target(symbol, quantity))
    {
      var h := Entry(symbol, InferMultiplier(symbol));
      h.target := Some(quantity);
      OneChanged(symbol);
    }

    method RemoveHoldingIfFlat(symbol: Symbol) returns (removed: bool)
      requires Valid()
      modifies this
      ensures Valid() && holdings.Values <= old(holdings.Values)
      ensures removed <==> Removable(old(State()), symbol)
      ensures State() == Step(old(State()), RemoveFlat(symbol))
    {
      removed := symbol in holdings && !holdings[symbol].IsInvested()
                 && !(holdings[symbol].target.Some? && holdings[symbol].target.value != 0.0);
      if removed {
        holdings := holdings - {symbol};
        schedule := schedule - {symbol};
        assert Book() == old(Book()) - {symbol};
      }
    }

    /** `apply_margin_interest_rate`: charge once per funding time reached, then move the schedule on. */
    method ApplyMarginInterestRate(symbol: Symbol, time: int, rate: real) returns (charged: Option<real>)
      requires Valid()
      modifies this, holdings.Values
      ensures Valid() && holdings == old(holdings)
      ensures State() == Step(old(State()), Rate(symbol, time, rate))
      ensures charged.Some? <==> Falls(old(State()), symbol, time, rate)
      ensures charged.Some? ==> charged.value == cash - old(cash)
    {
      if symbol !in holdings { return None; }
      var h := holdings[symbol];
      if !h.IsInvested() || h.lastPrice == 0.0 {
        schedule := schedule - {symbol};
        assert Book() == old(Book());
        return None;
      }
      var next := if symbol in schedule then schedule[symbol] else NextFundingTime(symbol, time);
      if time < next {
        schedule := schedule[symbol := next];
        ChargesNothing(old(State()), symbol, time, rate, next);
        assert Book() == old(Book());
        return None;
      }
      charged := ChargeDue(symbol, next, time, rate);
      ChargesSome(old(State()), symbol, time, rate, next, charged.value, State());
    }

    /** The position is open and `next` has been reached. */
    method ChargeDue(symbol: Symbol, next: int, time: int, rate: real) returns (charged: Option<real>)
      requires Valid() && symbol in holdings && time >= next
      modifies this`cash, this`totalFunding, this`schedule, holdings[symbol]
      ensures charged == Some(Charged(CatchUp(symbol, next, time).0, rate, old(Book())[symbol].MarketValue()))
      ensures Book() == WithFunding(old(Book()), symbol, charged.value)
      ensures cash == old(cash) + charged.value && totalFunding == old(totalFunding) + charged.value
      ensures schedule == old(schedule)[symbol := CatchUp(symbol, next, time).1]
    {
      var h := holdings[symbol];
      var value := h.quantity * h.lastPrice * h.multiplier;
      assert value == Book()[symbol].MarketValue();
      var delta, after := ChargeUntil(symbol, next, time, rate, value);
      Fund(symbol, delta);
      schedule := schedule[symbol := after];
      charged := Some(delta);
    }

    method Fund(symbol: Symbol, delta: real)
      requires Valid() && symbol in holdings
      modifies this`cash, this`totalFunding, holdings[symbol]
      ensures Book() == WithFunding(old(Book()), symbol, delta)
      ensures cash == old(cash) + delta && totalFunding == old(totalFunding) + delta
    {
      var h := holdings[symbol];
      h.totalFunding := h.totalFunding + delta;
      cash := cash + delta;
      totalFunding := totalFunding + delta;
      OneChanged(symbol);
    }

    /** The catch-up loop of `apply_margin_interest_rate`. */
    method ChargeUntil(symbol: Symbol, first: int, time: int, rate: real, value: real) returns (delta: real, next: int)
      ensures delta == Charged(CatchUp(symbol, first, time).0, rate, value)
      ensures next == CatchUp(symbol, first, time).1
    {
      delta, next := 0.0, first;
      ghost var plan, made := CatchUp(symbol, first, time), 0;
      while time >= next
        invariant 0 <= made <= plan.0 && CatchUp(symbol, next, time) == (plan.0 - made, plan.1)
        invariant delta == Charged(made, rate, value)
        decreases time - next
      {
        NextFundingIsNextBoundary(symbol, next);
        OneMoreCharge(made, rate, value);
        delta := delta - rate * value;
        next := NextFundingTime(symbol, next);
        made := made + 1;
      }
    }

    /** The sum over the holdings, in whatever order the map yields them. */
    method TotalPortfolioValue() returns (value: real)
      requires Valid()
      ensures value == TotalValue(State())
    {
      value := cash;
      var rest := holdings.Keys;
      ghost var book := Book();
      assert Restrict(book, rest) == book;
      while rest != {}
        invariant rest <= holdings.Keys
        invariant value + Sum(Restrict(book, rest), ContributionOf) == cash + Sum(book, ContributionOf)
        decreases rest
      {
        var k :| k in rest;
        RestrictPick(book, rest, k, ContributionOf);
        assert book[k] == holdings[k].State();
        value := value + holdings[k].PortfolioValueContribution();
        rest := rest - {k};
      }
    }
  }

  function WithFunding(book: map<Symbol, Holding>, symbol: Symbol, delta: real): map<Symbol, Holding>
    requires symbol in book
  {
    book[symbol := book[symbol].(totalFunding := book[symbol].totalFunding + delta)]
  }

  lemma FillIsStep(s: PortfolioState, mid: PortfolioState, symbol: Symbol, price: real, quantity: real, fee: real,
                   multiplier: real, p: Holding, t: PortfolioState)
    requires p == Prepared(s.book, symbol, multiplier) && mid.book == s.book[symbol := p]
    requires t.book == mid.book[symbol := p.Filled(price, quantity, fee)]
    requires t.cash == s.cash + p.Settlement(price, quantity, fee)
    requires t.totalFees == s.totalFees + fee && t.totalFunding == s.totalFunding && t.schedule == s.schedule
    ensures t == Step(s, Fill(symbol, price, quantity, fee, multiplier))
  {
  }

  /** A funding time of an open, priced position has been reached. */
  ghost predicate Falls(s: PortfolioState, symbol: Symbol, time: int, rate: real) {
    && symbol in s.book && s.book[symbol].IsInvested() && s.book[symbol].lastPrice != 0.0
    && Charge(s, symbol, time, rate).0 > 0
  }

  lemma ChargesSome(s: PortfolioState, symbol: Symbol, time: int, rate: real, next: int, delta: real, t: PortfolioState)
    requires symbol in s.book && s.book[symbol].IsInvested() && s.book[symbol].lastPrice != 0.0
    requires next == (if symbol in s.schedule then s.schedule[symbol] else NextFundingTime(symbol, time))
    requires delta == Charged(CatchUp(symbol, next, time).0, rate, s.book[symbol].MarketValue())
    requires t.book == s.book[symbol := s.book[symbol].(totalFunding := s.book[symbol].totalFunding + delta)]
    requires t.cash == s.cash + delta && t.totalFunding == s.totalFunding + delta && t.totalFees == s.totalFees
    requires t.schedule == s.schedule[symbol := CatchUp(symbol, next, time).1]
    ensures t == Step(s, Rate(symbol, time, rate))
  {
  }

  lemma OneMoreCharge(n: nat, rate: real, value: real)
    ensures Charged(n + 1, rate, value) == Charged(n, rate, value) - rate * value
  {
  }

  lemma ChargesNothing(s: PortfolioState, symbol: Symbol, time: int, rate: real, next: int)
    requires symbol in s.book && s.book[symbol].IsInvested() && s.book[symbol].lastPrice != 0.0
    requires next == (if symbol in s.schedule then s.schedule[symbol] else NextFundingTime(symbol, time))
    requires time < next
    ensures Step(s, Rate(symbol, time, rate)) == s.(schedule := s.schedule[symbol := next])
  {
    assert Charge(s, symbol, time, rate) == (0, next);
    assert Charged(0, rate, s.book[symbol].MarketValue()) == 0.0;
    FundedByNothing(s, symbol);
  }

  lemma FundedByNothing(s: PortfolioState, symbol: Symbol)
    requires symbol in s.book
    ensures Funded(s, symbol, -0.0) == s && Funded(s, symbol, 0.0) == s
  {
  }
}
