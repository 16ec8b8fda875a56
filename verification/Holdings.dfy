/** One position: quantity, average cost and the profit it has realized or still carries. */
module Holdings {
  import opened Results
  import opened Reals
  import opened Symbols

  /** Weighted-average cost of a position and a lot added to it. */
  function BlendedPrice(average: real, quantity: real, price: real, fill: real): real
    requires quantity + fill != 0.0
  {
    (average * quantity + price * fill) / (quantity + fill)
  }

  /** Profit of `closed` units of a position of the given sign. */
  function ClosingProfit(price: real, average: real, closed: real, sign: real, multiplier: real): real {
    (price - average) * closed * sign * multiplier
  }

  function OpenProfit(price: real, average: real, quantity: real, multiplier: real): real {
    (price - average) * quantity * multiplier
  }

  datatype Holding = Holding(
    symbol: Symbol,
    multiplier: real,
    quantity: real,
    averagePrice: real,
    unrealizedPnl: real,
    realizedPnl: real,
    totalFees: real,
    totalFunding: real,
    lastPrice: real,
    target: Option<real>)
  {
    predicate IsInvested() { quantity != 0.0 }

    predicate HasOpenTarget() { target.Some? && target.value != 0.0 }

    function MarketValue(): real { quantity * lastPrice * multiplier }

    /** What the position adds to the portfolio: a crypto future is margined, everything else is paid for. */
    function Contribution(): real {
      if symbol.securityType.CryptoFuture? then unrealizedPnl else MarketValue()
    }

    function WithPrice(price: real): Holding {
      this.(lastPrice := price, unrealizedPnl := OpenProfit(price, averagePrice, quantity, multiplier))
    }

    function WithMultiplier(m: real): Holding {
      this.(multiplier := m).WithPrice(lastPrice)
    }

    /** `SecurityHolding::apply_fill`. */
    function Filled(price: real, fill: real, fee: real): Holding {
      var after := quantity + fill;
      var h :=
        if quantity == 0.0 then
          this.(averagePrice := price)
        else if Signum(quantity) == Signum(fill) then
          this.(averagePrice := BlendedPrice(averagePrice, quantity, price, fill))
        else
          var closed := if Abs(quantity) < Abs(fill) then Abs(quantity) else Abs(fill);
          var pnl := ClosingProfit(price, averagePrice, closed, Signum(quantity), multiplier);
          this.(realizedPnl := realizedPnl + pnl,
                averagePrice := if after == 0.0 then 0.0
                                else if Signum(after) != Signum(quantity) then price
                                else averagePrice);
      h.(totalFees := totalFees + fee, quantity := after).WithPrice(price)
    }

    /** The unrealized profit is the one the last price implies. */
    ghost predicate Marked() {
      unrealizedPnl == OpenProfit(lastPrice, averagePrice, quantity, multiplier)
    }

    /** Cash this position has moved so far: profit, fees and funding, less what is tied up at cost. */
    ghost function CashMoved(): real {
      realizedPnl - totalFees + totalFunding
      - (if symbol.securityType.CryptoFuture? then 0.0 else averagePrice * quantity * multiplier)
    }

    /** The cash a fill settles: profit for a crypto future, the full notional otherwise. */
    function Settlement(price: real, fill: real, fee: real): real {
      if symbol.securityType.CryptoFuture? then Filled(price, fill, fee).realizedPnl - realizedPnl - fee
      else -(price * fill * multiplier) - fee
    }
  }

  function InferMultiplier(symbol: Symbol): real {
    if symbol.securityType.OptionContract? then 100.0 else 1.0
  }

  function NewHolding(symbol: Symbol, multiplier: real): Holding {
    Holding(symbol, multiplier, 0.0, 0.0, 0.0, 0.0, 0.0, 0.0, 0.0, None)
  }

  /** The cost still tied up after a fill, and the profit it realized: they account for the whole
      notional of the fill whether it opens, adds, reduces, closes or reverses. */
  lemma FillAccountsForNotional(h: Holding, price: real, fill: real, fee: real)
    ensures var g := h.Filled(price, fill, fee);
            (g.realizedPnl - h.realizedPnl)
            - (g.averagePrice * g.quantity * g.multiplier - h.averagePrice * h.quantity * h.multiplier)
            == -(price * fill * h.multiplier)
  {
  }

  lemma FillKeeps(h: Holding, price: real, fill: real, fee: real)
    ensures var g := h.Filled(price, fill, fee);
            && g.symbol == h.symbol && g.multiplier == h.multiplier && g.target == h.target
            && g.totalFunding == h.totalFunding && g.totalFees == h.totalFees + fee
            && g.quantity == h.quantity + fill && g.lastPrice == price && g.Marked()
  {
  }

  /** The fill goes against the position. */
  predicate Opposes(quantity: real, fill: real) { quantity > 0.0 > fill || quantity < 0.0 < fill }

  /** `g` is left at an average cost of `average` after `closed` signed units of `h` were sold at `price`. */
  ghost predicate Closes(h: Holding, g: Holding, price: real, closed: real, average: real) {
    && g.averagePrice == average
    && g.realizedPnl == h.realizedPnl + (price - h.averagePrice) * closed * h.multiplier
  }

  /** A fill against less than the whole position keeps its average cost and realizes the difference on the
      units it closes; the rest is as before. */
  lemma ReducingKeepsAverage(h: Holding, price: real, fill: real, fee: real)
    requires Opposes(h.quantity, fill) && Abs(fill) < Abs(h.quantity)
    ensures Closes(h, h.Filled(price, fill, fee), price, -fill, h.averagePrice)
    ensures h.symbol.securityType.CryptoFuture? ==>
              h.Settlement(price, fill, fee) == (price - h.averagePrice) * -fill * h.multiplier - fee
  {
  }

  /** A fill of the whole position leaves no cost; one beyond it closes all of it and opens the rest at the
      price of the fill. */
  lemma ClosingRealizesAll(h: Holding, price: real, fill: real, fee: real)
    requires Opposes(h.quantity, fill) && Abs(fill) >= Abs(h.quantity)
    ensures Closes(h, h.Filled(price, fill, fee), price, h.quantity, if fill == -h.quantity then 0.0 else price)
  {
  }

  lemma BlendTimes(average: real, quantity: real, price: real, fill: real)
    requires quantity + fill != 0.0
    ensures BlendedPrice(average, quantity, price, fill) * (quantity + fill) == average * quantity + price * fill
  {
  }

  /** A fill that opens or adds, or of nothing, realizes nothing and blends the costs, unit by unit. */
  lemma AddingBlends(h: Holding, price: real, fill: real, fee: real)
    requires !Opposes(h.quantity, fill)
    ensures var g := h.Filled(price, fill, fee);
            g.realizedPnl == h.realizedPnl
            && g.averagePrice * g.quantity == h.averagePrice * h.quantity + price * fill
  {
    AddingIs(h, price, fill, fee);
    if h.quantity != 0.0 && fill != 0.0 {
      BlendTimes(h.averagePrice, h.quantity, price, fill);
    }
  }

  lemma NothingClosed(price: real, average: real, sign: real, multiplier: real)
    ensures ClosingProfit(price, average, 0.0, sign, multiplier) == 0.0
  {
  }

  lemma AddingIs(h: Holding, price: real, fill: real, fee: real)
    requires !Opposes(h.quantity, fill)
    ensures var g := h.Filled(price, fill, fee);
            && g.realizedPnl == h.realizedPnl && g.quantity == h.quantity + fill
            && g.averagePrice == if h.quantity == 0.0 then price else if fill == 0.0 then h.averagePrice
                                 else BlendedPrice(h.averagePrice, h.quantity, price, fill)
  {
    NothingClosed(price, h.averagePrice, Signum(h.quantity), h.multiplier);
  }

  lemma BlendIs(average: real, quantity: real, price: real, fill: real, x: real)
    requires quantity + fill != 0.0 && x * (quantity + fill) == average * quantity + price * fill
    ensures x == BlendedPrice(average, quantity, price, fill)
  {
  }

  lemma BlendTwice(average: real, quantity: real, price: real, first: real, second: real)
    requires quantity + first != 0.0 && quantity + first + second != 0.0
    ensures BlendedPrice(BlendedPrice(average, quantity, price, first), quantity + first, price, second)
            == BlendedPrice(average, quantity, price, first + second)
  {
    var once := BlendedPrice(average, quantity, price, first);
    var twice := BlendedPrice(once, quantity + first, price, second);
    assert once * (quantity + first) == average * quantity + price * first;
    assert twice * (quantity + first + second) == once * (quantity + first) + price * second;
    assert price * (first + second) == price * first + price * second;
    BlendIs(average, quantity, price, first + second, twice);
  }

  lemma BlendWithItself(quantity: real, price: real, fill: real)
    requires quantity + fill != 0.0
    ensures BlendedPrice(price, quantity, price, fill) == price
  {
    assert price * quantity + price * fill == price * (quantity + fill);
    BlendIs(price, quantity, price, fill, price);
  }

  lemma ProfitAdds(price: real, average: real, first: real, second: real, sign: real, multiplier: real)
    ensures ClosingProfit(price, average, first, sign, multiplier)
            + ClosingProfit(price, average, second, sign, multiplier)
            == ClosingProfit(price, average, first + second, sign, multiplier)
  {
  }

  lemma SplitAdding(h: Holding, price: real, first: real, second: real, fee: real, other: real)
    requires !Opposes(h.quantity, first) && ((first > 0.0 && second > 0.0) || (first < 0.0 && second < 0.0))
    ensures h.Filled(price, first, fee).Filled(price, second, other) == h.Filled(price, first + second, fee + other)
  {
    if h.quantity == 0.0 {
      BlendWithItself(first, price, second);
    } else {
      BlendTwice(h.averagePrice, h.quantity, price, first, second);
    }
  }

  lemma SplitReducing(h: Holding, price: real, first: real, second: real, fee: real, other: real)
    requires Opposes(h.quantity, first) && Opposes(h.quantity, second) && Abs(first) < Abs(h.quantity)
    ensures h.Filled(price, first, fee).Filled(price, second, other) == h.Filled(price, first + second, fee + other)
  {
    var closed := Min(Abs(second), Abs(h.quantity) - Abs(first));
    ProfitAdds(price, h.averagePrice, Abs(first), closed, Signum(h.quantity), h.multiplier);
  }

  lemma SplitReversing(h: Holding, price: real, first: real, second: real, fee: real, other: real)
    requires Opposes(h.quantity, first) && Opposes(h.quantity, second) && Abs(first) >= Abs(h.quantity)
    ensures h.Filled(price, first, fee).Filled(price, second, other) == h.Filled(price, first + second, fee + other)
  {
    if first != -h.quantity {
      BlendWithItself(h.quantity + first, price, second);
    }
  }

  /** A fill split in two at its price leaves the holding that the whole fill does, also where the first part
      opens or closes the position or the second reverses it. */
  lemma SplitFillsAgree(h: Holding, price: real, first: real, second: real, fee: real, other: real)
    requires (first > 0.0 && second > 0.0) || (first < 0.0 && second < 0.0)
    ensures h.Filled(price, first, fee).Filled(price, second, other) == h.Filled(price, first + second, fee + other)
  {
    if !Opposes(h.quantity, first) {
      SplitAdding(h, price, first, second, fee, other);
    } else if Abs(first) < Abs(h.quantity) {
      SplitReducing(h, price, first, second, fee, other);
    } else {
      SplitReversing(h, price, first, second, fee, other);
    }
  }

  /** A fill settles exactly the change of the cash its position accounts for. */
  lemma SettlementIsCashMoved(h: Holding, price: real, fill: real, fee: real)
    ensures h.Filled(price, fill, fee).CashMoved() == h.CashMoved() + h.Settlement(price, fill, fee)
  {
  }

  /** Value is profit: what a marked position moved in cash plus what it contributes. */
  lemma ValueIsProfit(h: Holding)
    requires h.Marked()
    ensures h.CashMoved() + h.Contribution() == h.realizedPnl + h.unrealizedPnl - h.totalFees + h.totalFunding
  {
  }

  /** Changing the multiplier of a paid-for position re-bases its cost without moving cash. */
  lemma RemultiplyRebasesCost(h: Holding, m: real)
    ensures h.WithMultiplier(m).Marked()
    ensures h.WithMultiplier(m).CashMoved() == h.CashMoved()
              - (if h.symbol.securityType.CryptoFuture? then 0.0 else h.averagePrice * h.quantity * (m - h.multiplier))
  {
  }

  /** The mutable position; its methods follow the value functions above. */
  class SecurityHolding {
    const symbol: Symbol
    var multiplier: real
    var quantity: real
    var averagePrice: real
    var unrealizedPnl: real
    var realizedPnl: real
    var totalFees: real
    var totalFunding: real
    var lastPrice: real
    var target: Option<real>

    ghost function State(): Holding
      reads this
    {
      Holding(symbol, multiplier, quantity, averagePrice, unrealizedPnl, realizedPnl, totalFees, totalFunding,
          lastPrice, target)
    }

    constructor (symbol: Symbol, multiplier: real)
      ensures State() == NewHolding(symbol, multiplier)
      ensures this.symbol == symbol
    {
      this.symbol, this.multiplier := symbol, multiplier;
      quantity, averagePrice, unrealizedPnl, realizedPnl := 0.0, 0.0, 0.0, 0.0;
      totalFees, totalFunding, lastPrice, target := 0.0, 0.0, 0.0, None;
    }

    predicate IsInvested()
      reads this
    {
      quantity != 0.0
    }

    function PortfolioValueContribution(): (value: real)
      reads this
      ensures value == State().Contribution()
    {
      if symbol.securityType.CryptoFuture? then unrealizedPnl else quantity * lastPrice * multiplier
    }

    method UpdatePrice(price: real)
      modifies this
      ensures State() == old(State()).WithPrice(price)
    {
      lastPrice := price;
      unrealizedPnl := OpenProfit(price, averagePrice, quantity, multiplier);
    }

    method SetMultiplier(m: real)
      modifies this
      ensures State() == old(State()).WithMultiplier(m)
    {
      multiplier := m;
      UpdatePrice(lastPrice);
    }

    method ApplyFill(price: real, fill: real, fee: real)
      modifies this
      ensures State() == old(State()).Filled(price, fill, fee)
    {
      totalFees := totalFees + fee;
      var current := quantity;
      var after := current + fill;
      if current == 0.0 {
        averagePrice := price;
      } else if Signum(current) == Signum(fill) {
        averagePrice := BlendedPrice(averagePrice, current, price, fill);
      } else {
        var closed := if Abs(current) < Abs(fill) then Abs(current) else Abs(fill);
        var pnl := ClosingProfit(price, averagePrice, closed, Signum(current), multiplier);
        realizedPnl := realizedPnl + pnl;
        if after == 0.0 {
          averagePrice := 0.0;
        } else if Signum(after) != Signum(current) {
          averagePrice := price;
        }
      }
      quantity := after;
      UpdatePrice(price);
    }
  }
}
