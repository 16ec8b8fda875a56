/** What the removal protocol guarantees over whole runs. */
module RemovalRuns {
  import opened Results
  import opened Symbols
  import opened MapSums
  import opened Removal

  ghost function Run(s: State, actions: seq<Action>): State
    decreases |actions|
  {
    if actions == [] then s else Run(Step(s, actions[0]), actions[1..])
  }

  /** Every order of the run is placed on a symbol that has a security at that moment. */
  ghost predicate DisciplinedRun(s: State, actions: seq<Action>)
    decreases |actions|
  {
    actions == [] || (Disciplined(s, actions[0]) && DisciplinedRun(Step(s, actions[0]), actions[1..]))
  }

  lemma {:induction false} RunKeepsSafe(s: State, actions: seq<Action>)
    requires Safe(s) && DisciplinedRun(s, actions)
    ensures Safe(Run(s, actions))
    decreases |actions|
  {
    if actions != [] {
      StepKeepsSafe(s, actions[0]);
      RunKeepsSafe(Step(s, actions[0]), actions[1..]);
    }
  }

  /** Over every run from an empty algorithm: a symbol with a holding or an open order has a security, and
      the pending set is the disjoint union of both generation maps inside the securities. */
  lemma RemovalSafety(actions: seq<Action>)
    requires DisciplinedRun(Initial(), actions)
    ensures PositionsBacked(Run(Initial(), actions)) && PendingFiled(Run(Initial(), actions))
  {
    RunKeepsSafe(Initial(), actions);
  }

  /** Held, targeted at something, or on order. */
  ghost predicate InUse(s: State, symbol: Symbol) {
    || (symbol in s.positions && s.positions[symbol].quantity != 0.0)
    || (symbol in s.positions && s.positions[symbol].target.Some? && s.positions[symbol].target.value != 0.0)
    || exists id :: id in s.orders && s.orders[id].symbol == symbol
  }

  /** In use itself or owed unsettled cash, or the underlying of a present security in use. */
  ghost predicate Needed(s: State, symbol: Symbol) {
    || InUse(s, symbol)
    || (symbol in s.unsettled && s.unsettled[symbol] != 0.0)
    || exists dependent :: dependent in s.securities && dependent.underlying == Some(symbol) && InUse(s, dependent)
  }

  lemma SafeToRemoveIff(s: State, symbol: Symbol)
    ensures s.SafeToRemove(symbol) <==> !Needed(s, symbol)
  {
    assert forall x :: s.Active(x) <==> InUse(s, x);
  }

  // ---- The generation barriers ----

  /** Present, and pending at most by a direct request of the current time step. */
  ghost predicate HeldByTimeStep(s: State, x: Symbol) {
    x in s.securities && (x in s.pending ==> x in s.directGenerations && s.directGenerations[x] == s.directClock)
  }

  /** Present, and pending at most by a universe request of the current selection pass. */
  ghost predicate HeldBySelection(s: State, x: Symbol) {
    x in s.securities && (x in s.pending ==> x in s.universeGenerations && s.universeGenerations[x] == s.universeClock)
  }

  /** A step that keeps `x`, its filing and the clocks. */
  ghost predicate Keeps(s: State, t: State, x: Symbol) {
    && t.directClock == s.directClock && t.universeClock == s.universeClock
    && (x in s.securities ==> x in t.securities)
    && (x in t.pending ==> x in s.pending)
    && (x in t.pending && x in s.directGenerations
       ==> x in t.directGenerations && t.directGenerations[x] == s.directGenerations[x])
    && (x in t.pending && x in s.universeGenerations
       ==> x in t.universeGenerations && t.universeGenerations[x] == s.universeGenerations[x])
  }

  lemma EnsuredKeeps(s: State, symbol: Symbol, x: Symbol)
    ensures Keeps(s, Ensured(s, symbol), x)
  {
  }

  lemma MarketOrderedKeeps(s: State, id: nat, symbol: Symbol, quantity: real, accepted: bool, x: Symbol)
    ensures Keeps(s, MarketOrdered(s, id, symbol, quantity, accepted), x)
  {
    EnsuredKeeps(s, symbol, x);
  }

  lemma KeepsOneOf(s: State, c: State, m: State, t: State, x: Symbol)
    requires t == s || t == c || t == m
    requires Keeps(s, c, x) && Keeps(c, m, x) && c.pending == s.pending
    ensures Keeps(s, t, x)
  {
  }

  lemma LiquidatedKeeps(s: State, id: nat, symbol: Symbol, accepted: bool, x: Symbol)
    ensures Keeps(s, Liquidated(s, id, symbol, accepted), x)
  {
    var closing := -s.PositionOf(symbol).quantity - Sum(s.orders, MarketRemaining(symbol));
    var c := CancelRequested(s, symbol, true);
    MarketOrderedKeeps(c, id, symbol, closing, accepted, x);
    KeepsOneOf(s, c, MarketOrdered(c, id, symbol, closing, accepted), Liquidated(s, id, symbol, accepted), x);
  }

  /** Removing one symbol leaves the others where they are, and files its own under the direct clock. */
  lemma RemovedFiles(s: State, id: nat, symbol: Symbol, accepted: bool, x: Symbol)
    requires x in s.securities
    ensures var t := Removed(s, id, symbol, accepted);
            && x in t.securities && t.directClock == s.directClock && t.universeClock == s.universeClock
            && (x != symbol ==> Keeps(s, t, x))
            && (x == symbol ==> x in t.directGenerations && t.directGenerations[x] == s.directClock)
  {
    if symbol in s.securities || symbol in s.contracts {
      var c := if s.warmingUp then s else CancelRequested(s, symbol, false);
      assert Keeps(s, c, x);
      LiquidatedKeeps(c, id, symbol, accepted, x);
      assert Keeps(s, Liquidated(c, id, symbol, accepted), x);
    }
  }

  lemma PassKeepsHeld(s: State, eligible: set<Symbol>, x: Symbol)
    requires x in s.pending ==> x !in eligible
    ensures Keeps(s, Processed(s, eligible), x)
  {
  }

  lemma PassSparesNeeded(s: State, eligible: set<Symbol>, symbol: Symbol)
    requires symbol in s.securities && Needed(s, symbol)
    ensures symbol in Processed(s, eligible).securities
  {
    SafeToRemoveIff(s, symbol);
  }

  lemma OnlyPassesRemove(s: State, a: Action, symbol: Symbol)
    requires symbol in s.securities && !a.ProcessUniverse? && !a.ProcessDirect? && !a.Drain?
    ensures symbol in Step(s, a).securities
  {
    match a
    case Add(x) => EnsuredKeeps(s, x, symbol);
    case AddContract(x) => EnsuredKeeps(s, x, symbol);
    case Remove(x, id, accepted) => RemovedFiles(s, id, x, accepted, symbol);
    case OrderMarket(x, id, quantity, accepted) => MarketOrderedKeeps(s, id, x, quantity, accepted, symbol);
    case Flatten(x, id, accepted) => LiquidatedKeeps(s, id, x, accepted, symbol);
    case _ => QuietKeepsSecurities(s, a, symbol);
  }

  /** No step of any kind takes away a security that is in use, or on which one in use depends. */
  lemma NeededIsNeverRemoved(s: State, a: Action, symbol: Symbol)
    requires symbol in s.securities && Needed(s, symbol)
    ensures symbol in Step(s, a).securities
  {
    if a.ProcessUniverse? || a.ProcessDirect? || a.Drain? {
      PassesSpareNeeded(s, symbol);
    } else {
      OnlyPassesRemove(s, a, symbol);
    }
  }

  lemma PassesSpareNeeded(s: State, symbol: Symbol)
    requires symbol in s.securities && Needed(s, symbol)
    ensures symbol in Step(s, ProcessUniverse).securities && symbol in Step(s, ProcessDirect).securities
    ensures symbol in Step(s, Drain).securities
  {
    PassSparesNeeded(s, EligibleUniverse(s), symbol);
    PassSparesNeeded(s, EligibleDirect(s), symbol);
    PassSparesNeeded(s, s.pending, symbol);
  }

  /** Neither adds, removes nor places a market order. */
  predicate Quiet(a: Action) {
    && !a.Add? && !a.AddContract? && !a.Remove? && !a.OrderMarket? && !a.Flatten?
    && !a.ProcessUniverse? && !a.ProcessDirect? && !a.Drain?
  }

  lemma QuietKeepsSecurities(s: State, a: Action, symbol: Symbol)
    requires Quiet(a) && symbol in s.securities
    ensures symbol in Step(s, a).securities
  {
  }

  lemma TimeStepHoldsQuietly(s: State, a: Action, x: Symbol)
    requires PendingFiled(s) && HeldByTimeStep(s, x) && Quiet(a)
    requires !a.AdvanceTimeStep? && !(a.RequestUniverse? && a.symbol == x)
    ensures HeldByTimeStep(Step(s, a), x)
  {
  }

  lemma SelectionHoldsQuietly(s: State, a: Action, x: Symbol)
    requires PendingFiled(s) && HeldBySelection(s, x) && Quiet(a) && !a.BeginUniversePass?
    ensures HeldBySelection(Step(s, a), x)
  {
  }

  lemma TimeStepHolds(s: State, a: Action, x: Symbol)
    requires PendingFiled(s) && HeldByTimeStep(s, x)
    requires !a.AdvanceTimeStep? && !a.Drain? && !(a.RequestUniverse? && a.symbol == x)
    ensures HeldByTimeStep(Step(s, a), x)
  {
    match a
    case Add(symbol) => EnsuredKeeps(s, symbol, x);
    case AddContract(symbol) => EnsuredKeeps(s, symbol, x);
    case Remove(symbol, id, accepted) => RemovedFiles(s, id, symbol, accepted, x);
    case OrderMarket(symbol, id, quantity, accepted) => MarketOrderedKeeps(s, id, symbol, quantity, accepted, x);
    case Flatten(symbol, id, accepted) => LiquidatedKeeps(s, id, symbol, accepted, x);
    case ProcessUniverse => PassKeepsHeld(s, EligibleUniverse(s), x);
    case ProcessDirect => PassKeepsHeld(s, EligibleDirect(s), x);
    case _ => TimeStepHoldsQuietly(s, a, x);
  }

  lemma SelectionHolds(s: State, a: Action, x: Symbol)
    requires PendingFiled(s) && HeldBySelection(s, x)
    requires !a.BeginUniversePass? && !a.Drain? && !(a.Remove? && a.symbol == x)
    ensures HeldBySelection(Step(s, a), x)
  {
    match a
    case Add(symbol) => EnsuredKeeps(s, symbol, x);
    case AddContract(symbol) => EnsuredKeeps(s, symbol, x);
    case Remove(symbol, id, accepted) => RemovedFiles(s, id, symbol, accepted, x);
    case OrderMarket(symbol, id, quantity, accepted) => MarketOrderedKeeps(s, id, symbol, quantity, accepted, x);
    case Flatten(symbol, id, accepted) => LiquidatedKeeps(s, id, symbol, accepted, x);
    case ProcessUniverse => PassKeepsHeld(s, EligibleUniverse(s), x);
    case ProcessDirect => PassKeepsHeld(s, EligibleDirect(s), x);
    case _ => SelectionHoldsQuietly(s, a, x);
  }

  /** From the moment a direct removal is requested, whatever happens short of advancing the time step (or
      handing the symbol to the universe, or the administrative drain), the security stays. */
  lemma {:induction false} DirectBarrier(s: State, actions: seq<Action>, x: Symbol)
    requires Safe(s) && DisciplinedRun(s, actions) && HeldByTimeStep(s, x)
    requires forall a :: a in actions ==> !a.AdvanceTimeStep? && !a.Drain? && !(a.RequestUniverse? && a.symbol == x)
    ensures HeldByTimeStep(Run(s, actions), x)
    decreases |actions|
  {
    if actions != [] {
      StepKeepsSafe(s, actions[0]);
      TimeStepHolds(s, actions[0], x);
      DirectBarrier(Step(s, actions[0]), actions[1..], x);
    }
  }

  /** From the moment a universe removal is requested, whatever happens short of a new selection pass (or a
      direct removal of the symbol, or the administrative drain), the security stays. */
  lemma {:induction false} UniverseBarrier(s: State, actions: seq<Action>, x: Symbol)
    requires Safe(s) && DisciplinedRun(s, actions) && HeldBySelection(s, x)
    requires forall a :: a in actions ==> !a.BeginUniversePass? && !a.Drain? && !(a.Remove? && a.symbol == x)
    ensures HeldBySelection(Run(s, actions), x)
    decreases |actions|
  {
    if actions != [] {
      StepKeepsSafe(s, actions[0]);
      SelectionHolds(s, actions[0], x);
      UniverseBarrier(Step(s, actions[0]), actions[1..], x);
    }
  }

  /** Each request puts its symbol behind its barrier. */
  lemma RequestsAreHeld(s: State, id: nat, x: Symbol, accepted: bool)
    requires x in s.securities
    ensures HeldByTimeStep(Step(s, Remove(x, id, accepted)), x)
    ensures HeldBySelection(Step(s, RequestUniverse(x)), x)
  {
    RemovedFiles(s, id, x, accepted, x);
  }

  // ---- Liquidation ----

  lemma LoneOrderWeight(s: State, symbol: Symbol)
    requires AlreadyClosing(s, symbol)
    ensures Sum(s.orders, MarketRemaining(symbol)) == -s.PositionOf(symbol).quantity
  {
    var id :|
      && id in s.orders && OpenIds(s, symbol) == {id}
      && s.orders[id].market && s.orders[id].remaining == -s.PositionOf(symbol).quantity;
    assert id in OpenIds(s, symbol);
    forall other | other in s.orders && other != id ensures s.orders[other].symbol != symbol {
      assert other !in OpenIds(s, symbol);
    }
    SumPick(s.orders, MarketRemaining(symbol), id);
    SumOfZeros(s.orders - {id}, MarketRemaining(symbol));
  }

  /** The security takes orders now, or will once the option contract is re-selected for its closing order. */
  ghost predicate TakesOrders(s: State, symbol: Symbol) {
    symbol in s.securities && (s.securities[symbol] || (symbol.securityType.OptionContract? && symbol in s.pending))
  }

  lemma ReselectedTakesOrders(s: State, symbol: Symbol)
    requires symbol in s.securities && (s.securities[symbol] || symbol in s.pending)
    ensures var t := Ensured(s, symbol);
            symbol in t.securities && t.securities[symbol] && t.orders == s.orders && t.positions == s.positions
  {
  }

  lemma TradablePlaces(s: State, id: nat, symbol: Symbol, quantity: real)
    requires symbol in s.securities && s.securities[symbol]
    ensures Submitted(s, id, symbol, true, quantity, true)
            == s.(orders := s.orders[id := Order(symbol, true, quantity, false)])
  {
  }

  lemma ClosingOrderIsPlaced(s: State, id: nat, symbol: Symbol, quantity: real)
    requires TakesOrders(s, symbol)
    ensures var t := MarketOrdered(s, id, symbol, quantity, true);
            t.orders == s.orders[id := Order(symbol, true, quantity, false)] && t.positions == s.positions
  {
    if symbol.securityType.OptionContract? {
      ReselectedTakesOrders(s, symbol);
      TradablePlaces(Ensured(s, symbol), id, symbol, quantity);
    } else {
      TradablePlaces(s, id, symbol, quantity);
    }
  }

  lemma ClosingOrderCloses(c: State, id: nat, symbol: Symbol, total: real)
    requires TakesOrders(c, symbol) && id !in c.orders && total == Sum(c.orders, MarketRemaining(symbol))
    ensures Flattens(c, MarketOrdered(c, id, symbol, -c.PositionOf(symbol).quantity - total, true), symbol)
  {
    var closing := -c.PositionOf(symbol).quantity - total;
    ClosingOrderIsPlaced(c, id, symbol, closing);
    OneMoreOrder(c.orders, id, symbol, closing);
  }

  lemma OneMoreOrder(orders: map<nat, Order>, id: nat, symbol: Symbol, quantity: real)
    requires id !in orders
    ensures Sum(orders[id := Order(symbol, true, quantity, false)], MarketRemaining(symbol))
            == Sum(orders, MarketRemaining(symbol)) + quantity
  {
    SumUpdate(orders, MarketRemaining(symbol), id, Order(symbol, true, quantity, false));
  }

  /** The position stands as it did, and the market orders in flight close it exactly. */
  ghost predicate Flattens(s: State, t: State, symbol: Symbol) {
    && t.PositionOf(symbol) == s.PositionOf(symbol)
    && t.PositionOf(symbol).quantity + Sum(t.orders, MarketRemaining(symbol)) == 0.0
  }

  lemma CancelRequestKeeps(s: State, id: nat, symbol: Symbol)
    requires TakesOrders(s, symbol) && id !in s.orders
    ensures var c := CancelRequested(s, symbol, true);
            && TakesOrders(c, symbol) && c.positions == s.positions && id !in c.orders
            && Sum(c.orders, MarketRemaining(symbol)) == Sum(s.orders, MarketRemaining(symbol))
  {
    SumSameWeights(s.orders, CancelRequested(s, symbol, true).orders, MarketRemaining(symbol));
  }

  lemma FlattensEitherWay(s: State, c: State, m: State, t: State, symbol: Symbol)
    requires c.positions == s.positions && Flattens(c, m, symbol)
    requires t == if -s.PositionOf(symbol).quantity - Sum(c.orders, MarketRemaining(symbol)) == 0.0 then c else m
    ensures Flattens(s, t, symbol)
  {
  }

  /** Liquidating an open position leaves market orders that close it exactly. */
  lemma LiquidationFlattens(s: State, id: nat, symbol: Symbol)
    requires TakesOrders(s, symbol) && id !in s.orders && s.PositionOf(symbol).quantity != 0.0
    ensures Flattens(s, Liquidated(s, id, symbol, true), symbol)
  {
    if AlreadyClosing(s, symbol) {
      LoneOrderWeight(s, symbol);
    } else {
      var total, c := Sum(s.orders, MarketRemaining(symbol)), CancelRequested(s, symbol, true);
      CancelRequestKeeps(s, id, symbol);
      ClosingOrderCloses(c, id, symbol, total);
      var m := MarketOrdered(c, id, symbol, -c.PositionOf(symbol).quantity - total, true);
      LiquidatedIs(s, id, symbol, total, c, m);
      FlattensEitherWay(s, c, m, Liquidated(s, id, symbol, true), symbol);
    }
  }

  lemma LiquidatedIs(s: State, id: nat, symbol: Symbol, total: real, c: State, m: State)
    requires s.PositionOf(symbol).quantity != 0.0 && !AlreadyClosing(s, symbol)
    requires total == Sum(s.orders, MarketRemaining(symbol)) && c == CancelRequested(s, symbol, true)
    requires m == MarketOrdered(c, id, symbol, -s.PositionOf(symbol).quantity - total, true)
    ensures Liquidated(s, id, symbol, true) == if -s.PositionOf(symbol).quantity - total == 0.0 then c else m
  {
    LiquidatedUnfolds(s, id, symbol);
  }

  lemma LiquidatedUnfolds(s: State, id: nat, symbol: Symbol)
    requires s.PositionOf(symbol).quantity != 0.0 && !AlreadyClosing(s, symbol)
    ensures var closing := -s.PositionOf(symbol).quantity - Sum(s.orders, MarketRemaining(symbol));
            var c := CancelRequested(s, symbol, true);
            Liquidated(s, id, symbol, true) == if closing == 0.0 then c else MarketOrdered(c, id, symbol, closing, true)
  {
  }
}
