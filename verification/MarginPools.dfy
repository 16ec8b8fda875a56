/** What counts towards an order's margin and collateral, holding by holding. */
module MarginPools {
  import opened Results
  import opened Reals
  import opened Symbols
  import opened MapSums
  import opened BuyingPower
  import opened Holdings
  import opened Portfolio
  import opened Solvency

  /** Crypto futures of one quote currency, or neither of them a crypto future. */
  ghost predicate OnePool(a: Account, x: Symbol, y: Symbol) {
    && (x.securityType.CryptoFuture? <==> y.securityType.CryptoFuture?)
    && (x.securityType.CryptoFuture? ==> a.QuoteCurrency(x) == a.QuoteCurrency(y))
  }

  /** The account with another holding of one symbol. */
  function WithHolding(a: Account, h: Holding): Account {
    a.(portfolio := a.portfolio.(book := a.portfolio.book[h.symbol := h]))
  }

  /** What a holding of the pool takes up at a price: its whole worth over the leverage allowed on it. One of
      another pool, or without a security, takes up nothing. */
  ghost predicate TakesUp(a: Account, scope: Symbol, h: Holding, price: real, margin: real) {
    if OnePool(a, scope, h.symbol) && h.symbol in a.securities then
      margin * TimesMargin(a.securities[h.symbol].model, a.securities[h.symbol].leverage)
      == Abs(h.quantity * price) * h.multiplier
    else margin == 0.0
  }

  lemma PooledIff(a: Account, x: Symbol, y: Symbol)
    ensures a.SharesPool(x, y) <==> OnePool(a, x, y)
  {
  }

  lemma TermTakesUp(a: Account, scope: Symbol, h: Holding, price: real)
    ensures TakesUp(a, scope, h, price, MarginTerm(a, scope, h, price))
  {
    PooledIff(a, scope, h.symbol);
    if h.symbol in a.securities {
      var s := a.securities[h.symbol];
      MarginCoversNotional(s.model, h.quantity, price, h.multiplier, s.leverage);
    }
  }

  ghost function PriceIn(a: Account, x: Symbol): real { if x in a.securities then a.securities[x].price else 0.0 }

  /** One holding more moves the margin an order of another symbol requires by what that holding takes up: by
      nothing, if it is of another pool. */
  lemma OnlyOwnPoolCounts(a: Account, order: Order, price: real, multiplier: real, h: Holding)
    returns (margin: real)
    requires h.symbol !in a.portfolio.book && h.symbol != order.symbol
    ensures MarginRequired(WithHolding(a, h), order, price, multiplier)
            == MarginRequired(a, order, price, multiplier) + margin
    ensures TakesUp(a, order.symbol, h, PriceIn(a, h.symbol), margin)
  {
    margin := MarginTerm(a, order.symbol, h, PriceIn(a, h.symbol));
    TermTakesUp(a, order.symbol, h, PriceIn(a, h.symbol));
    OneHoldingMore(a, order, price, multiplier, h, margin);
  }

  lemma OneHoldingMore(a: Account, order: Order, price: real, multiplier: real, h: Holding, margin: real)
    requires h.symbol !in a.portfolio.book && h.symbol != order.symbol
    requires margin == OrderTerm(a, order.symbol, Some((order, price)), h)
    ensures MarginRequired(WithHolding(a, h), order, price, multiplier)
            == MarginRequired(a, order, price, multiplier) + margin
  {
    var term := g => OrderTerm(a, order.symbol, Some((order, price)), g);
    var same := g => OrderTerm(WithHolding(a, h), order.symbol, Some((order, price)), g);
    SumUpdate(a.portfolio.book, term, h.symbol, h);
    SumSame(a.portfolio.book[h.symbol := h], term, same);
  }

  /** The order's own holding counts with the order added to it, at the price of the order, in place of what it
      takes up now. */
  lemma OrderTakesUp(a: Account, order: Order, price: real, multiplier: real) returns (now: real, next: real)
    requires FiledBySymbol(a)
    ensures MarginRequired(a, order, price, multiplier) == MarginUsed(a, order.symbol) - now + next
    ensures var h := HoldingOf(a.portfolio.book, order.symbol, multiplier);
            && TakesUp(a, order.symbol, h, PriceIn(a, h.symbol), now)
            && TakesUp(a, order.symbol, h.(quantity := h.quantity + order.remaining), price, next)
  {
    var scope, h := order.symbol, HoldingOf(a.portfolio.book, order.symbol, multiplier);
    var g := h.(quantity := h.quantity + order.remaining);
    now, next := MarginTerm(a, scope, h, PriceIn(a, scope)), MarginTerm(a, scope, g, price);
    TermTakesUp(a, scope, h, PriceIn(a, scope));
    TermTakesUp(a, scope, g, price);
    OwnHoldingChanges(a, order, price, multiplier, now, next);
  }

  lemma OwnHoldingChanges(a: Account, order: Order, price: real, multiplier: real, now: real, next: real)
    requires FiledBySymbol(a)
    requires var h := HoldingOf(a.portfolio.book, order.symbol, multiplier);
             && now == CurrentMargin(a, order.symbol, h)
             && next == OrderTerm(a, order.symbol, Some((order, price)), h)
    ensures MarginRequired(a, order, price, multiplier) == MarginUsed(a, order.symbol) - now + next
  {
    SumDiffersAt(a.portfolio.book, h => OrderTerm(a, order.symbol, Some((order, price)), h),
                 h => CurrentMargin(a, order.symbol, h), order.symbol);
  }

  // ---- The value of the portfolio ----

  ghost function MarkedIn(a: Account): Holding -> real {
    (h: Holding) => h.WithPrice(a.PriceOf(h)).Contribution()
  }

  /** The portfolio's value is its cash and what its holdings would contribute, marked at their securities' prices. */
  lemma ValueMarksHoldings(a: Account)
    ensures PortfolioValue(a) == a.portfolio.cash + Sum(a.portfolio.book, MarkedIn(a))
  {
    forall h: Holding ensures ValueTerm(a, h) == MarkedIn(a)(h) {
      TermIsMarked(a, h);
    }
    SumSame(a.portfolio.book, h => ValueTerm(a, h), MarkedIn(a));
  }

  lemma TermIsMarked(a: Account, h: Holding)
    ensures ValueTerm(a, h) == MarkedIn(a)(h)
  {
  }

  /** Where the securities' prices are the ones the holdings are marked at, it is the portfolio's total value. */
  lemma ValueIsTotalValue(a: Account)
    requires WellFormed(a.portfolio)
    requires forall x :: x in a.portfolio.book && x in a.securities && a.securities[x].price != 0.0 ==>
               a.securities[x].price == a.portfolio.book[x].lastPrice
    ensures PortfolioValue(a) == TotalValue(a.portfolio)
  {
    SumSame(a.portfolio.book, h => ValueTerm(a, h), ContributionOf);
  }
}
