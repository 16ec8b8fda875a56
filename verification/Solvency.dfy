/** Order validation against buying power, and what it guarantees once the order is filled. */
module Solvency {
  import opened Results
  import opened Reals
  import opened Symbols
  import opened MapSums
  import opened BuyingPower
  import opened Holdings
  import opened Portfolio

  datatype Security = Security(price: real, leverage: Leverage, model: BuyingPowerModel, quoteCurrency: nat)

  datatype Order = Order(symbol: Symbol, remaining: real)

  datatype Verdict = Accepted | Rejected(reason: string)

  datatype Account = Account(portfolio: PortfolioState, securities: map<Symbol, Security>,
                             defaultCurrency: map<Symbol, nat>) {
    function QuoteCurrency(symbol: Symbol): nat {
      if symbol in securities then securities[symbol].quoteCurrency
      else if symbol in defaultCurrency then defaultCurrency[symbol] else 0
    }

    /** Crypto futures pool with crypto futures of one quote currency, everything else with everything else. */
    predicate SharesPool(left: Symbol, right: Symbol) {
      if left.securityType.CryptoFuture? || right.securityType.CryptoFuture? then
        left.securityType.CryptoFuture? && right.securityType.CryptoFuture?
            && QuoteCurrency(left) == QuoteCurrency(right)
      else true
    }

    function PriceOf(h: Holding): real {
      if h.symbol in securities && securities[h.symbol].price != 0.0 then securities[h.symbol].price else h.lastPrice
    }
  }

  /** The term of `portfolio_value` for one holding, at the security's price. */
  function ValueTerm(a: Account, h: Holding): real {
    if !h.IsInvested() then 0.0
    else if h.symbol.securityType.CryptoFuture? then (a.PriceOf(h) - h.averagePrice) * h.quantity * h.multiplier
    else h.quantity * a.PriceOf(h) * h.multiplier
  }

  ghost function PortfolioValue(a: Account): real {
    a.portfolio.cash + Sum(a.portfolio.book, h => ValueTerm(a, h))
  }

  /** The margin one holding needs at `price`, if it pools with `scope`. */
  function MarginTerm(a: Account, scope: Symbol, h: Holding, price: real): real {
    if !a.SharesPool(scope, h.symbol) || h.symbol !in a.securities then 0.0
    else
      var s := a.securities[h.symbol];
      InitialMargin(s.model, h.quantity, price, h.multiplier, s.leverage)
  }

  /** Margin in use with every holding at its security's price. */
  ghost function MarginUsed(a: Account, scope: Symbol): real {
    Sum(a.portfolio.book, h => CurrentMargin(a, scope, h))
  }

  ghost function CurrentMargin(a: Account, scope: Symbol, h: Holding): real {
    MarginTerm(a, scope, h, if h.symbol in a.securities then a.securities[h.symbol].price else 0.0)
  }

  /** The account after the order is filled in full. */
  function Executed(a: Account, order: Order, price: real, fee: real, multiplier: real): Account {
    a.(portfolio := Step(a.portfolio, Fill(order.symbol, price, order.remaining, fee, multiplier)))
  }

  ghost predicate FiledBySymbol(a: Account) {
    forall symbol :: symbol in a.portfolio.book ==> a.portfolio.book[symbol].symbol == symbol
  }

  /** The invariant whose breach makes the original panic. */
  ghost predicate InvestedHaveSecurities(a: Account) {
    forall symbol :: symbol in a.portfolio.book && a.portfolio.book[symbol].IsInvested() ==> symbol in a.securities
  }

  ghost predicate MultiplierMatches(a: Account, symbol: Symbol, multiplier: real) {
    symbol in a.portfolio.book ==> a.portfolio.book[symbol].multiplier == multiplier
  }

  /** The margin term of a holding once the order under validation is added to it. */
  function OrderTerm(a: Account, scope: Symbol, order: Option<(Order, real)>, h: Holding): real {
    if order.Some? && h.symbol == order.value.0.symbol then
      MarginTerm(a, scope, h.(quantity := h.quantity + order.value.0.remaining), order.value.1)
    else
      MarginTerm(a, scope, h, if h.symbol in a.securities then a.securities[h.symbol].price else 0.0)
  }

  /** The margin an order needs for a symbol that has no holding yet. */
  function OpeningTerm(a: Account, scope: Symbol, order: Option<(Order, real)>, contractMultiplier: real): real {
    if order.Some? && order.value.0.symbol !in a.portfolio.book then
      MarginTerm(a, scope, NewHolding(order.value.0.symbol, contractMultiplier).(quantity := order.value.0.remaining),
          order.value.1)
    else 0.0
  }

  /** The order does not open a pooled holding that has no security: the source panics on one. */
  predicate LeavesNothingUnsecured(a: Account, scope: Symbol, order: Order) {
    order.symbol !in a.securities && order.symbol in a.portfolio.book && a.SharesPool(scope, order.symbol) ==>
      a.portfolio.book[order.symbol].quantity + order.remaining == 0.0
  }

  /** `margin_used_after_order`: an order on a symbol without a security counts for nothing. */
  method MarginUsedAfterOrder(a: Account, order: Option<(Order, real)>, scope: Symbol, contractMultiplier: real)
    returns (total: real)
    requires FiledBySymbol(a) && InvestedHaveSecurities(a)
    requires order.Some? ==> LeavesNothingUnsecured(a, scope, order.value.0)
    ensures total == Sum(a.portfolio.book, h => OrderTerm(a, scope, order, h))
            + OpeningTerm(a, scope, order, contractMultiplier)
  {
    total := 0.0;
    var inHoldings := false;
    var book := a.portfolio.book;
    ghost var term := h => OrderTerm(a, scope, order, h);
    var rest := book.Keys;
    assert Restrict(book, rest) == book;
    while rest != {}
      invariant rest <= book.Keys
      invariant total + Sum(Restrict(book, rest), term) == Sum(book, term)
      invariant inHoldings <==>
                  order.Some? && order.value.0.symbol in book.Keys - rest && a.SharesPool(scope, order.value.0.symbol)
      decreases rest
    {
      var symbol :| symbol in rest;
      RestrictPick(book, rest, symbol, term);
      rest := rest - {symbol};
      var margin, mine := HoldingMargin(a, order, scope, book[symbol]);
      total := total + margin;
      inHoldings := inHoldings || mine;
    }
    if order.Some? && !inHoldings && a.SharesPool(scope, order.value.0.symbol) && order.value.0.symbol in a.securities {
      var security := a.securities[order.value.0.symbol];
      total := total + InitialMargin(security.model, order.value.0.remaining, order.value.1, contractMultiplier,
          security.leverage);
    }
  }

  /** One turn of that loop, and whether it met the order's own holding. */
  method HoldingMargin(a: Account, order: Option<(Order, real)>, scope: Symbol, holding: Holding)
    returns (margin: real, mine: bool)
    requires holding.symbol !in a.securities && a.SharesPool(scope, holding.symbol) ==>
               holding.quantity + (if order.Some? && holding.symbol == order.value.0.symbol
                                   then order.value.0.remaining else 0.0) == 0.0
    ensures margin == OrderTerm(a, scope, order, holding)
    ensures mine <==> order.Some? && holding.symbol == order.value.0.symbol && a.SharesPool(scope, holding.symbol)
  {
    margin, mine := 0.0, false;
    if !a.SharesPool(scope, holding.symbol) { return; }
    var h := holding;
    if order.Some? && h.symbol == order.value.0.symbol {
      h := h.(quantity := h.quantity + order.value.0.remaining).WithPrice(order.value.1);
      mine := true;
    }
    if h.symbol in a.securities {
      var security := a.securities[h.symbol];
      var price := if mine then order.value.1 else security.price;
      margin := InitialMargin(security.model, h.quantity, price, h.multiplier, security.leverage);
    } else {
      assert !h.IsInvested();
    }
  }

  /** `portfolio_value`: the sum over the invested holdings. */
  method ComputePortfolioValue(a: Account) returns (value: real)
    ensures value == PortfolioValue(a)
  {
    value := a.portfolio.cash;
    var book := a.portfolio.book;
    ghost var term := h => ValueTerm(a, h);
    var rest := book.Keys;
    assert Restrict(book, rest) == book;
    while rest != {}
      invariant rest <= book.Keys
      invariant value + Sum(Restrict(book, rest), term) == a.portfolio.cash + Sum(book, term)
      decreases rest
    {
      var symbol :| symbol in rest;
      RestrictPick(book, rest, symbol, term);
      value := value + ValueTerm(a, book[symbol]);
      rest := rest - {symbol};
    }
  }

  /** What the order needs in margin once added to the holdings it pools with. */
  ghost function MarginRequired(a: Account, order: Order, price: real, contractMultiplier: real): real {
    Sum(a.portfolio.book, h => OrderTerm(a, order.symbol, Some((order, price)), h))
    + OpeningTerm(a, order.symbol, Some((order, price)), contractMultiplier)
  }

  /** The collateral an order on `symbol` is checked against. */
  ghost function Collateral(a: Account, symbol: Symbol): real {
    if symbol.securityType.CryptoFuture? then a.portfolio.cash else PortfolioValue(a)
  }

  /** The order is priced at its security's positive price, with a non-negative fee and the position's multiplier. */
  ghost predicate AtSecurityPrice(a: Account, order: Order, price: real, fee: real, multiplier: real) {
    && order.symbol in a.securities && a.securities[order.symbol].price == price > 0.0
    && MultiplierMatches(a, order.symbol, multiplier) && fee >= 0.0
  }

  /** `validate_order_buying_power`: on paid-for orders it accepts exactly those whose fill leaves the
      account solvent. */
  method ValidateOrderBuyingPower(a: Account, order: Order, fillPrice: real, orderFee: real, contractMultiplier: real)
    returns (r: Verdict)
    requires FiledBySymbol(a) && InvestedHaveSecurities(a)
    ensures order.remaining == 0.0 ==> r == Accepted
    ensures order.remaining != 0.0 && (order.symbol !in a.securities || fillPrice <= 0.0) ==> r.Rejected?
    ensures order.remaining != 0.0 && order.symbol in a.securities && fillPrice > 0.0 ==>
              (r.Accepted? <==>
                MarginRequired(a, order, fillPrice, contractMultiplier)
                    <= Max(Collateral(a, order.symbol) - Max(orderFee, 0.0), 0.0))
    ensures order.remaining != 0.0 && AtSecurityPrice(a, order, fillPrice, orderFee, contractMultiplier)
            && !order.symbol.securityType.CryptoFuture? ==>
              var after := Executed(a, order, fillPrice, orderFee, contractMultiplier);
              r.Accepted? <==> MarginUsed(after, order.symbol) <= Max(PortfolioValue(after), 0.0)
  {
    if AtSecurityPrice(a, order, fillPrice, orderFee, contractMultiplier) && !order.symbol.securityType.CryptoFuture? {
      AcceptedExactlyWhenSolvent(a, order, fillPrice, orderFee, contractMultiplier);
    }
    if order.remaining == 0.0 { return Accepted; }
    if order.symbol !in a.securities { return Rejected("security is not initialized"); }
    if fillPrice <= 0.0 { return Rejected("no positive fill price"); }
    var collateral;
    if order.symbol.securityType.CryptoFuture? {
      collateral := a.portfolio.cash;
    } else {
      collateral := ComputePortfolioValue(a);
    }
    var afterFee := Max(collateral - Max(orderFee, 0.0), 0.0);
    var used := MarginUsedAfterOrder(a, Some((order, fillPrice)), order.symbol, contractMultiplier);
    if used > afterFee { return Rejected("insufficient buying power"); }
    r := Accepted;
  }

  // ---- Once the order is filled ----

  /** `after` replaces the order's holding `p` by `g`, which has the order's quantity added. */
  ghost predicate Replaced(a: Account, after: Account, order: Order, multiplier: real, p: Holding, g: Holding) {
    && after.securities == a.securities && after.defaultCurrency == a.defaultCurrency
    && after.portfolio.book == a.portfolio.book[order.symbol := g]
    && p == HoldingOf(a.portfolio.book, order.symbol, multiplier)
    && p.symbol == g.symbol == order.symbol && p.multiplier == g.multiplier == multiplier
    && g.quantity == p.quantity + order.remaining
  }

  lemma ExecutionReplaces(a: Account, order: Order, price: real, fee: real, multiplier: real)
    returns (p: Holding, g: Holding)
    requires FiledBySymbol(a) && MultiplierMatches(a, order.symbol, multiplier)
    ensures var after := Executed(a, order, price, fee, multiplier);
            && Replaced(a, after, order, multiplier, p, g)
            && after.portfolio.cash == a.portfolio.cash +
                 (if order.symbol.securityType.CryptoFuture? then g.realizedPnl - p.realizedPnl - fee
                  else -(price * order.remaining * multiplier) - fee)
  {
    p := Prepared(a.portfolio.book, order.symbol, multiplier);
    g := p.Filled(price, order.remaining, fee);
    FillKeeps(p, price, order.remaining, fee);
  }

  lemma MarginOfReplaced(a: Account, after: Account, order: Order, price: real, multiplier: real, p: Holding,
                         g: Holding)
    requires FiledBySymbol(a) && order.symbol in a.securities && a.securities[order.symbol].price == price
    requires Replaced(a, after, order, multiplier, p, g)
    ensures MarginUsed(after, order.symbol) == MarginRequired(a, order, price, multiplier)
  {
    var scope, book := order.symbol, a.portfolio.book;
    var used := h => CurrentMargin(after, scope, h);
    var ordered := h => OrderTerm(a, scope, Some((order, price)), h);
    SumUpdate(book, used, scope, g);
    SumDiffersAt(book, ordered, used, scope);
  }

  /** Filled in full at the security's price, the margin validated is the margin in use. */
  lemma ValidatedMarginIsUsed(a: Account, order: Order, price: real, fee: real, multiplier: real)
    requires FiledBySymbol(a) && order.symbol in a.securities && a.securities[order.symbol].price == price
    requires MultiplierMatches(a, order.symbol, multiplier)
    ensures MarginUsed(Executed(a, order, price, fee, multiplier), order.symbol)
            == MarginRequired(a, order, price, multiplier)
  {
    var p, g := ExecutionReplaces(a, order, price, fee, multiplier);
    MarginOfReplaced(a, Executed(a, order, price, fee, multiplier), order, price, multiplier, p, g);
  }

  function Worth(quantity: real, price: real, multiplier: real): real { quantity * price * multiplier }

  lemma WorthAdds(q: real, f: real, price: real, m: real)
    ensures Worth(q + f, price, m) == Worth(q, price, m) + price * f * m
    ensures Worth(0.0, price, m) == 0.0
  {
  }

  /** A paid-for holding is worth its quantity at the security's price. */
  lemma PaidHoldingIsWorth(a: Account, h: Holding, price: real)
    requires !h.symbol.securityType.CryptoFuture? && h.symbol in a.securities
             && a.securities[h.symbol].price == price > 0.0
    ensures ValueTerm(a, h) == Worth(h.quantity, price, h.multiplier)
  {
  }

  lemma ValueOfReplaced(a: Account, after: Account, order: Order, price: real, multiplier: real, p: Holding, g: Holding)
    requires order.symbol in a.securities && a.securities[order.symbol].price == price > 0.0
    requires Replaced(a, after, order, multiplier, p, g) && !order.symbol.securityType.CryptoFuture?
    ensures PortfolioValue(after) - after.portfolio.cash
            == PortfolioValue(a) - a.portfolio.cash + price * order.remaining * multiplier
  {
    PaidHoldingIsWorth(after, g, price);
    PaidHoldingIsWorth(after, p, price);
    WorthAdds(p.quantity, order.remaining, price, multiplier);
    ValueOfUpdated(a, after, order.symbol, p, g);
  }

  lemma ValueOfUpdated(a: Account, after: Account, symbol: Symbol, p: Holding, g: Holding)
    requires after.securities == a.securities && after.portfolio.book == a.portfolio.book[symbol := g]
    requires if symbol in a.portfolio.book then p == a.portfolio.book[symbol] else !p.IsInvested()
    ensures PortfolioValue(after) - after.portfolio.cash
            == PortfolioValue(a) - a.portfolio.cash + ValueTerm(after, g) - ValueTerm(after, p)
  {
    var before, value := h => ValueTerm(a, h), h => ValueTerm(after, h);
    SumUpdate(a.portfolio.book, value, symbol, g);
    forall h ensures before(h) == value(h) {
    }
    SumSame(a.portfolio.book, before, value);
  }

  /** A paid-for fill at the security's price costs the account exactly its fee. */
  lemma FillAtPriceCostsTheFee(a: Account, order: Order, price: real, fee: real, multiplier: real)
    requires FiledBySymbol(a) && order.symbol in a.securities && a.securities[order.symbol].price == price > 0.0
    requires MultiplierMatches(a, order.symbol, multiplier) && !order.symbol.securityType.CryptoFuture?
    ensures PortfolioValue(Executed(a, order, price, fee, multiplier)) == PortfolioValue(a) - fee
  {
    var p, g := ExecutionReplaces(a, order, price, fee, multiplier);
    ValueOfReplaced(a, Executed(a, order, price, fee, multiplier), order, price, multiplier, p, g);
  }

  /** Accepted orders stay solvent, and only those: for a paid-for order filled in full at the security's
      price with a non-negative fee, validation accepts exactly when margin in use after the fill is within
      what the portfolio is then worth. */
  lemma AcceptedExactlyWhenSolvent(a: Account, order: Order, price: real, fee: real, multiplier: real)
    requires FiledBySymbol(a) && AtSecurityPrice(a, order, price, fee, multiplier)
             && !order.symbol.securityType.CryptoFuture?
    ensures var after := Executed(a, order, price, fee, multiplier);
            MarginRequired(a, order, price, multiplier) <= Max(Collateral(a, order.symbol) - Max(fee, 0.0), 0.0)
            <==> MarginUsed(after, order.symbol) <= Max(PortfolioValue(after), 0.0)
  {
    ValidatedMarginIsUsed(a, order, price, fee, multiplier);
    FillAtPriceCostsTheFee(a, order, price, fee, multiplier);
  }

  /** A crypto future is checked against cash alone: acceptance bounds the margin by the cash after the
      fill, less the profit the fill itself realizes. */
  lemma AcceptedCryptoFuture(a: Account, order: Order, price: real, fee: real, multiplier: real)
    requires FiledBySymbol(a) && AtSecurityPrice(a, order, price, fee, multiplier)
             && order.symbol.securityType.CryptoFuture?
    ensures var after := Executed(a, order, price, fee, multiplier);
            var realized := after.portfolio.book[order.symbol].realizedPnl
                            - HoldingOf(a.portfolio.book, order.symbol, multiplier).realizedPnl;
            MarginRequired(a, order, price, multiplier) <= Max(Collateral(a, order.symbol) - Max(fee, 0.0), 0.0)
            <==> MarginUsed(after, order.symbol) <= Max(after.portfolio.cash - realized, 0.0)
  {
    ValidatedMarginIsUsed(a, order, price, fee, multiplier);
  }
}
