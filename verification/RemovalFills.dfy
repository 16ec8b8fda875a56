/** How orders in flight become positions, and what a removal's position ends at. */
module RemovalFills {
  import opened Results
  import opened Symbols
  import opened MapSums
  import opened Removal
  import opened RemovalRuns
  import opened RemovalCancels

  /** What is held of a symbol once everything on its way has arrived. */
  ghost function Expected(s: State, x: Symbol): real {
    s.PositionOf(x).quantity + Sum(s.orders, MarketRemaining(x))
  }

  /** A fill of an open market order, or of another symbol, that ends the order exactly when nothing of it remains. */
  ghost predicate Fills(s: State, a: Action, x: Symbol) {
    && a.Fill? && a.id in s.orders
    && (s.orders[a.id].symbol == x ==> s.orders[a.id].market)
    && (a.closes <==> a.quantity == s.orders[a.id].remaining)
  }

  function AfterFill(orders: map<nat, Order>, id: nat, quantity: real, closes: bool): map<nat, Order>
    requires id in orders
  {
    var o := orders[id];
    if closes then orders - {id} else orders[id := Order(o.symbol, o.market, o.remaining - quantity, o.cancelPending)]
  }

  lemma OrdersGive(orders: map<nat, Order>, id: nat, quantity: real, closes: bool, x: Symbol)
    requires id in orders && (orders[id].symbol == x ==> orders[id].market)
    requires closes ==> quantity == orders[id].remaining
    ensures Sum(AfterFill(orders, id, quantity, closes), MarketRemaining(x))
            == Sum(orders, MarketRemaining(x)) - if orders[id].symbol == x then quantity else 0.0
  {
    if closes {
      SumRemove(orders, MarketRemaining(x), id);
    } else {
      LessRemains(orders, id, quantity, x);
    }
  }

  lemma LessRemains(orders: map<nat, Order>, id: nat, quantity: real, x: Symbol)
    requires id in orders && (orders[id].symbol == x ==> orders[id].market)
    ensures Sum(AfterFill(orders, id, quantity, false), MarketRemaining(x))
            == Sum(orders, MarketRemaining(x)) - if orders[id].symbol == x then quantity else 0.0
  {
    var o := orders[id];
    var left := Order(o.symbol, o.market, o.remaining - quantity, o.cancelPending);
    SumUpdate(orders, MarketRemaining(x), id, left);
    LessWeight(o, left, quantity, x);
  }

  lemma LessWeight(o: Order, left: Order, quantity: real, x: Symbol)
    requires left.symbol == o.symbol && left.market == o.market && left.remaining == o.remaining - quantity
    requires o.symbol == x ==> o.market
    ensures MarketRemaining(x)(left) == MarketRemaining(x)(o) - if o.symbol == x then quantity else 0.0
  {
  }

  lemma FilledIs(s: State, a: Action, x: Symbol)
    requires a.Fill? && a.id in s.orders
    ensures var t, o := Step(s, a), s.orders[a.id];
            && t.orders == AfterFill(s.orders, a.id, a.quantity, a.closes)
            && t.PositionOf(x) == Position(
                 s.PositionOf(x).quantity + (if o.symbol == x then a.quantity else 0.0), s.PositionOf(x).target)
            && t.securities == s.securities && t.pending == s.pending
  {
  }

  /** A fill moves quantity from the order into the position. */
  lemma FillMoves(s: State, a: Action, x: Symbol)
    requires Fills(s, a, x)
    ensures Expected(Step(s, a), x) == Expected(s, x)
  {
    OrdersGive(s.orders, a.id, a.quantity, a.closes, x);
    FilledIs(s, a, x);
  }

  ghost predicate FillsOnly(s: State, actions: seq<Action>, x: Symbol)
    decreases |actions|
  {
    actions == [] || (Fills(s, actions[0], x) && FillsOnly(Step(s, actions[0]), actions[1..], x))
  }

  lemma {:induction false} FillsMove(s: State, actions: seq<Action>, x: Symbol)
    requires FillsOnly(s, actions, x)
    ensures Expected(Run(s, actions), x) == Expected(s, x)
    decreases |actions|
  {
    if actions != [] {
      FillMoves(s, actions[0], x);
      FillsMove(Step(s, actions[0]), actions[1..], x);
    }
  }

  ghost predicate NoneInFlight(s: State, x: Symbol) {
    forall id :: id in s.orders && s.orders[id].symbol == x ==> !s.orders[id].market
  }

  /** However the fills arrive, once no market order is open the position is what was expected. */
  lemma FilledPosition(s: State, actions: seq<Action>, x: Symbol)
    requires FillsOnly(s, actions, x) && NoneInFlight(Run(s, actions), x)
    ensures Run(s, actions).PositionOf(x).quantity == Expected(s, x)
  {
    FillsMove(s, actions, x);
    SumOfZeros(Run(s, actions).orders, MarketRemaining(x));
  }

  /** So an accepted liquidation ends flat. */
  lemma LiquidationEndsFlat(s: State, id: nat, x: Symbol, actions: seq<Action>)
    requires TakesOrders(s, x) && id !in s.orders && s.PositionOf(x).quantity != 0.0
    requires var t := Step(s, Flatten(x, id, true)); FillsOnly(t, actions, x) && NoneInFlight(Run(t, actions), x)
    ensures Run(Step(s, Flatten(x, id, true)), actions).PositionOf(x).quantity == 0.0
  {
    LiquidationFlattens(s, id, x);
    FilledPosition(Step(s, Flatten(x, id, true)), actions, x);
  }

  // ---- Acknowledged cancellations ----

  function Acknowledgements(ids: seq<nat>): seq<Action> {
    seq(|ids|, i requires 0 <= i < |ids| => CancelAcknowledged(ids[i]))
  }

  lemma {:induction false} AcknowledgedRun(s: State, ids: seq<nat>)
    ensures Run(s, Acknowledgements(ids)) == s.(orders := s.orders - set id | id in ids)
    decreases |ids|
  {
    if ids == [] {
      assert s.orders - {} == s.orders;
    } else {
      var rest := ids[1..];
      var t := s.(orders := s.orders - {ids[0]});
      assert Acknowledgements(ids)[1..] == Acknowledgements(rest);
      AcknowledgedRun(t, rest);
      assert (set id | id in ids) == {ids[0]} + (set id | id in rest);
      assert t.orders - (set id | id in rest) == s.orders - (set id | id in ids);
    }
  }

  /** Once every requested cancellation is acknowledged, the standing orders are open and no other. */
  lemma AcknowledgedIsStanding(s: State, ids: seq<nat>)
    requires forall id :: id in ids <==> id in s.orders && s.orders[id].cancelPending
    ensures Run(s, Acknowledgements(ids)) == s.(orders := Standing(s.orders))
  {
    AcknowledgedRun(s, ids);
    assert s.orders - (set id | id in ids) == Standing(s.orders);
  }

  /** A removal whose cancellations are all acknowledged before its closing order fills leaves exactly minus the
      market quantity that was in flight, however the fills arrive. */
  lemma RemovalEndsAt(s: State, id: nat, x: Symbol, ids: seq<nat>, actions: seq<Action>)
    requires !s.warmingUp && TakesOrders(s, x) && id !in s.orders && s.PositionOf(x).quantity != 0.0
    requires var t := Step(s, Remove(x, id, true));
             && (forall i :: i in ids <==> i in t.orders && t.orders[i].cancelPending)
             && FillsOnly(Run(t, Acknowledgements(ids)), actions, x)
             && NoneInFlight(Run(Run(t, Acknowledgements(ids)), actions), x)
    ensures var t := Run(Step(s, Remove(x, id, true)), Acknowledgements(ids));
            Run(t, actions).PositionOf(x).quantity == -Sum(s.orders, MarketRemaining(x))
  {
    var t := Step(s, Remove(x, id, true));
    AcknowledgedIsStanding(t, ids);
    RemovalLeavesCancelled(s, id, x);
    FilledPosition(Run(t, Acknowledgements(ids)), actions, x);
  }

  // ---- What else is recorded reads back ----

  /** Unsettled cash is what it was last set to, and zero is none. */
  lemma UnsettledReadsBack(s: State, x: Symbol, amount: real)
    ensures var t := Step(s, SetUnsettled(x, amount));
            && ((x in t.unsettled && t.unsettled[x] != 0.0) <==> amount != 0.0)
            && (x in t.unsettled ==> t.unsettled[x] == amount)
  {
  }

  /** Setting a target leaves the position. */
  lemma TargetReadsBack(s: State, x: Symbol, quantity: real)
    ensures Step(s, SetTarget(x, quantity)).PositionOf(x) == Position(s.PositionOf(x).quantity, Some(quantity))
  {
  }

  lemma ContractIsAdded(s: State, x: Symbol)
    ensures x in Step(s, AddContract(x)).contracts && x in Step(s, AddContract(x)).securities
  {
  }

  /** Announcements are handed over once, and warm-up is what it was last set to. */
  lemma FlagsReadBack(s: State, warming: bool)
    ensures Step(s, TakeChanges).changes == [] && Step(s, WarmUp(warming)).warmingUp == warming
  {
  }
}
