/** What becomes of a removal when the cancellations it requested are acknowledged. */
module RemovalCancels {
  import opened Results
  import opened Symbols
  import opened MapSums
  import opened Removal
  import opened RemovalRuns

  /** The open orders once every requested cancellation has been acknowledged. */
  function Standing(orders: map<nat, Order>): map<nat, Order> {
    map id | id in orders && !orders[id].cancelPending :: orders[id]
  }

  /** The position left when those orders have been filled. */
  ghost function Residual(s: State, symbol: Symbol): real {
    s.PositionOf(symbol).quantity + Sum(Standing(s.orders), MarketRemaining(symbol))
  }

  // ---- Market quantity in flight, with and without a requested cancellation ----

  ghost function StandingRemaining(symbol: Symbol): Order -> real {
    (o: Order) => if o.cancelPending then 0.0 else MarketRemaining(symbol)(o)
  }

  ghost function CancelledRemaining(symbol: Symbol): Order -> real {
    (o: Order) => if o.cancelPending then MarketRemaining(symbol)(o) else 0.0
  }

  lemma {:induction false} StandingSum(orders: map<nat, Order>, symbol: Symbol)
    ensures Sum(Standing(orders), MarketRemaining(symbol)) == Sum(orders, StandingRemaining(symbol))
    decreases |orders|
  {
    if orders == map[] {
      assert Standing(orders) == map[];
    } else {
      var id :| id in orders;
      Smaller(orders, id);
      StandingSum(orders - {id}, symbol);
      SumPick(orders, StandingRemaining(symbol), id);
      StandingWithout(orders, id);
      if !orders[id].cancelPending {
        SumPick(Standing(orders), MarketRemaining(symbol), id);
      }
    }
  }

  lemma StandingWithout(orders: map<nat, Order>, id: nat)
    requires id in orders
    ensures Standing(orders - {id}) == if orders[id].cancelPending then Standing(orders) else Standing(orders) - {id}
  {
  }

  /** What is in flight either stands or is to be cancelled. */
  lemma InFlightSplits(orders: map<nat, Order>, symbol: Symbol)
    ensures Sum(orders, MarketRemaining(symbol))
            == Sum(Standing(orders), MarketRemaining(symbol)) + Sum(orders, CancelledRemaining(symbol))
  {
    StandingSum(orders, symbol);
    SumAdds(orders, StandingRemaining(symbol), CancelledRemaining(symbol), MarketRemaining(symbol));
  }

  /** Once all of a symbol's cancellations are requested, all of its market quantity is to be cancelled. */
  lemma AllCancelled(s: State, symbol: Symbol)
    ensures Sum(CancelRequested(s, symbol, false).orders, CancelledRemaining(symbol))
            == Sum(s.orders, MarketRemaining(symbol))
  {
    var c := CancelRequested(s, symbol, false);
    SumAdds(c.orders, StandingRemaining(symbol), CancelledRemaining(symbol), MarketRemaining(symbol));
    SumOfZeros(c.orders, StandingRemaining(symbol));
    SumSameWeights(s.orders, c.orders, MarketRemaining(symbol));
  }

  // ---- Liquidation requests no further cancellation of market orders ----

  lemma LiquidationCancelsNoMarketOrder(c: State, id: nat, symbol: Symbol)
    requires TakesOrders(c, symbol) && id !in c.orders && c.PositionOf(symbol).quantity != 0.0
    ensures Sum(Liquidated(c, id, symbol, true).orders, CancelledRemaining(symbol))
            == Sum(c.orders, CancelledRemaining(symbol))
  {
    if !AlreadyClosing(c, symbol) {
      var total, r := Sum(c.orders, MarketRemaining(symbol)), CancelRequested(c, symbol, true);
      var closing := -c.PositionOf(symbol).quantity - total;
      CancelRequestKeeps(c, id, symbol);
      ClosingOrderIsPlaced(r, id, symbol, closing);
      LiquidatedIs(c, id, symbol, total, r, MarketOrdered(r, id, symbol, closing, true));
      SumSameWeights(c.orders, r.orders, CancelledRemaining(symbol));
      SumUpdate(r.orders, CancelledRemaining(symbol), id, Order(symbol, true, closing, false));
    }
  }

  /** A removal outside warm-up cancels the symbol's market orders and deducts them all the same, as if they
      were going to fill. Once the cancellations are acknowledged, the closing order leaves exactly what they
      would have brought. */
  lemma RemovalLeavesCancelled(s: State, id: nat, symbol: Symbol)
    requires !s.warmingUp && TakesOrders(s, symbol) && id !in s.orders && s.PositionOf(symbol).quantity != 0.0
    ensures Residual(Step(s, Remove(symbol, id, true)), symbol) == -Sum(s.orders, MarketRemaining(symbol))
  {
    var c := CancelRequested(s, symbol, false);
    var t := Liquidated(c, id, symbol, true);
    LiquidationFlattens(c, id, symbol);
    InFlightSplits(t.orders, symbol);
    LiquidationCancelsNoMarketOrder(c, id, symbol);
    AllCancelled(s, symbol);
    RemovedLeaves(s, id, symbol);
  }

  lemma RemovedLeaves(s: State, id: nat, symbol: Symbol)
    requires !s.warmingUp && symbol in s.securities
    ensures var t, u := Step(s, Remove(symbol, id, true)),
            Liquidated(CancelRequested(s, symbol, false), id, symbol, true);
            t.orders == u.orders && t.positions == u.positions
  {
  }

  /** So the position ends closed if and only if the market orders in flight at the removal netted to zero. */
  lemma RemovalClosesIff(s: State, id: nat, symbol: Symbol)
    requires !s.warmingUp && TakesOrders(s, symbol) && id !in s.orders && s.PositionOf(symbol).quantity != 0.0
    ensures Residual(Step(s, Remove(symbol, id, true)), symbol) == 0.0
            <==> Sum(s.orders, MarketRemaining(symbol)) == 0.0
  {
    RemovalLeavesCancelled(s, id, symbol);
  }

  /** Five held and a market order for three more on its way. */
  function BuyingMore(symbol: Symbol): State {
    Initial().(securities := map[symbol := true], subscriptions := {symbol},
               positions := map[symbol := Position(5.0, None)], orders := map[1 := Order(symbol, true, 3.0, false)])
  }

  /** Removed just then, a holding of five ends three short: eight are sold, and the three are never bought. */
  lemma RemovalOversells(symbol: Symbol)
    ensures var s := BuyingMore(symbol); Safe(s) && Residual(Step(s, Remove(symbol, 2, true)), symbol) == -3.0
  {
    var s := BuyingMore(symbol);
    RemovalLeavesCancelled(s, 2, symbol);
    SumUpdate(map[], MarketRemaining(symbol), 1, Order(symbol, true, 3.0, false));
    assert s.orders == map[][1 := Order(symbol, true, 3.0, false)];
  }
}
