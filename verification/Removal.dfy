/** Deferred security removal as a state machine: removal requests, their two generation clocks, and
    the orders and positions that may still be in flight. */
module Removal {
  import opened Results
  import opened Symbols
  import opened MapSums

  datatype Position = Position(quantity: real, target: Option<real>) {
    predicate Idle() { quantity == 0.0 && (target.None? || target.value == 0.0) }
  }

  /** An order in the open index; a requested cancellation leaves it open until acknowledged. */
  datatype Order = Order(symbol: Symbol, market: bool, remaining: real, cancelPending: bool)

  datatype State = State(
    securities: map<Symbol, bool>,
    subscriptions: set<Symbol>,
    contracts: set<Symbol>,
    positions: map<Symbol, Position>,
    unsettled: map<Symbol, real>,
    orders: map<nat, Order>,
    pending: set<Symbol>,
    universeGenerations: map<Symbol, nat>,
    directGenerations: map<Symbol, nat>,
    universeClock: nat,
    directClock: nat,
    changes: seq<Symbol>,
    warmingUp: bool)
  {
    function PositionOf(symbol: Symbol): Position {
      if symbol in positions then positions[symbol] else Position(0.0, None)
    }

    predicate HasOpenOrder(symbol: Symbol) {
      exists id :: id in orders && orders[id].symbol == symbol
    }

    /** Holding, target or order: anything that keeps a security in use. */
    predicate Active(symbol: Symbol) {
      !PositionOf(symbol).Idle() || HasOpenOrder(symbol)
    }

    /** `security_is_safe_to_remove`. */
    predicate SafeToRemove(symbol: Symbol) {
      && !Active(symbol)
      && (symbol !in unsettled || unsettled[symbol] == 0.0)
      && forall dependent :: dependent in securities && dependent.underlying == Some(symbol) ==> !Active(dependent)
    }
  }

  function Initial(): State {
    State(map[], {}, {}, map[], map[], map[], {}, map[], map[], 0, 0, [], false)
  }

  function Without(changes: seq<Symbol>, symbol: Symbol): (r: seq<Symbol>)
    ensures symbol !in r
    ensures forall x :: x in r <==> x in changes && x != symbol
  {
    if changes == [] then []
    else if changes[0] == symbol then Without(changes[1..], symbol)
    else [changes[0]] + Without(changes[1..], symbol)
  }

  /** `cancel_pending_security_removal`: re-selection makes a pending security tradable again. */
  function Cancelled(s: State, symbol: Symbol): State {
    s.(pending := s.pending - {symbol},
       universeGenerations := s.universeGenerations - {symbol},
       directGenerations := s.directGenerations - {symbol},
       changes := Without(s.changes, symbol),
       securities := if symbol in s.pending && symbol in s.securities then s.securities[symbol := true]
           else s.securities)
  }

  /** Add or re-select a security; one already present keeps its state. */
  function Ensured(s: State, symbol: Symbol): State {
    var c := Cancelled(s, symbol);
    if symbol in c.securities then c
    else c.(securities := c.securities[symbol := true], subscriptions := c.subscriptions + {symbol})
  }

  /** `submit_order`: a non-tradable security refuses the order, and so may the brokerage. A symbol
      with no security is not refused. */
  function Submitted(s: State, id: nat, symbol: Symbol, market: bool, quantity: real, accepted: bool): State {
    if (symbol in s.securities && !s.securities[symbol]) || !accepted then s
    else s.(orders := s.orders[id := Order(symbol, market, quantity, false)])
  }

  /** `market_order`: an option contract is materialized first. */
  function MarketOrdered(s: State, id: nat, symbol: Symbol, quantity: real, accepted: bool): State {
    var t := if symbol.securityType.OptionContract? then Ensured(s, symbol) else s;
    Submitted(t, id, symbol, true, quantity, accepted)
  }

  function CancelRequested(s: State, symbol: Symbol, onlyResting: bool): State {
    s.(orders := map id | id in s.orders ::
         if s.orders[id].symbol == symbol && !(onlyResting && s.orders[id].market)
         then s.orders[id].(cancelPending := true) else s.orders[id])
  }

  ghost function MarketRemaining(symbol: Symbol): Order -> real {
    (o: Order) => if o.symbol == symbol && o.market then o.remaining else 0.0
  }

  function OpenIds(s: State, symbol: Symbol): set<nat> {
    set id | id in s.orders && s.orders[id].symbol == symbol
  }

  /** A lone market order that already closes the position. */
  predicate AlreadyClosing(s: State, symbol: Symbol) {
    exists id ::
      && id in s.orders && OpenIds(s, symbol) == {id}
      && s.orders[id].market && s.orders[id].remaining == -s.PositionOf(symbol).quantity
  }

  /** `liquidate` for one symbol. */
  ghost function Liquidated(s: State, id: nat, symbol: Symbol, accepted: bool): State {
    var quantity := s.PositionOf(symbol).quantity;
    if quantity == 0.0 || AlreadyClosing(s, symbol) then s
    else
      var closing := -quantity - Sum(s.orders, MarketRemaining(symbol));
      var c := CancelRequested(s, symbol, true);
      if closing == 0.0 then c else MarketOrdered(c, id, symbol, closing, accepted)
  }

  /** The logical half of `remove_security`: not tradable, pending, and filed under the direct clock. */
  function Detached(s: State, symbol: Symbol): State {
    s.(securities := if symbol in s.securities then s.securities[symbol := false] else s.securities,
       pending := s.pending + {symbol},
       universeGenerations := s.universeGenerations - {symbol},
       directGenerations := s.directGenerations[symbol := s.directClock],
       changes := if symbol in s.changes then s.changes else s.changes + [symbol])
  }

  /** `remove_security`. */
  ghost function Removed(s: State, id: nat, symbol: Symbol, accepted: bool): State {
    if symbol !in s.securities && symbol !in s.contracts then s
    else
      var c := if s.warmingUp then s else CancelRequested(s, symbol, false);
      Detached(Liquidated(c, id, symbol, accepted), symbol)
  }

  /** `request_universe_security_removal`. */
  function UniverseRequested(s: State, symbol: Symbol): State {
    if symbol !in s.securities then s
    else s.(pending := s.pending + {symbol},
            directGenerations := s.directGenerations - {symbol},
            universeGenerations := s.universeGenerations[symbol := s.universeClock])
  }

  function Removable(s: State, eligible: set<Symbol>): set<Symbol> {
    set symbol | symbol in eligible && symbol in s.pending && s.SafeToRemove(symbol)
  }

  /** `process_pending_security_removal_ids`: safety is judged for all before any is removed. */
  function Processed(s: State, eligible: set<Symbol>): State {
    Purged(s, Removable(s, eligible))
  }

  function Purged(s: State, gone: set<Symbol>): State {
    s.(securities := s.securities - gone, subscriptions := s.subscriptions - gone, contracts := s.contracts - gone,
       positions := s.positions - gone, unsettled := s.unsettled - (gone * s.positions.Keys),
       pending := s.pending - gone,
       universeGenerations := s.universeGenerations - gone, directGenerations := s.directGenerations - gone)
  }

  function EligibleUniverse(s: State): set<Symbol> {
    set symbol | symbol in s.universeGenerations && s.universeGenerations[symbol] < s.universeClock
  }

  function EligibleDirect(s: State): set<Symbol> {
    set symbol | symbol in s.directGenerations && s.directGenerations[symbol] < s.directClock
  }

  function Filled(s: State, id: nat, quantity: real, closes: bool): State {
    if id !in s.orders then s
    else
      var o := s.orders[id];
      var p := s.PositionOf(o.symbol);
      s.(positions := s.positions[o.symbol := p.(quantity := p.quantity + quantity)],
         orders := if closes then s.orders - {id} else s.orders[id := o.(remaining := o.remaining - quantity)])
  }

  datatype Action =
    | Add(symbol: Symbol)
    | AddContract(symbol: Symbol)
    | Remove(symbol: Symbol, id: nat, accepted: bool)
    | RequestUniverse(symbol: Symbol)
    | Reselect(symbol: Symbol)
    | BeginUniversePass
    | AdvanceTimeStep
    | ProcessUniverse
    | ProcessDirect
    | Drain
    | TakeChanges
    | Submit(symbol: Symbol, id: nat, market: bool, quantity: real, accepted: bool)
    | OrderMarket(symbol: Symbol, id: nat, quantity: real, accepted: bool)
    | Flatten(symbol: Symbol, id: nat, accepted: bool)
    | Fill(id: nat, quantity: real, closes: bool)
    | CancelAcknowledged(id: nat)
    | SetTarget(symbol: Symbol, quantity: real)
    | SetUnsettled(symbol: Symbol, amount: real)
    | WarmUp(warming: bool)

  ghost function Step(s: State, a: Action): State {
    match a
    case Add(symbol) => Ensured(s, symbol)
    case AddContract(symbol) => var e := Ensured(s, symbol); e.(contracts := e.contracts + {symbol})
    case Remove(symbol, id, accepted) => Removed(s, id, symbol, accepted)
    case RequestUniverse(symbol) => UniverseRequested(s, symbol)
    case Reselect(symbol) => Cancelled(s, symbol)
    case BeginUniversePass => s.(universeClock := s.universeClock + 1)
    case AdvanceTimeStep => s.(directClock := s.directClock + 1)
    case ProcessUniverse => Processed(s, EligibleUniverse(s))
    case ProcessDirect => Processed(s, EligibleDirect(s))
    case Drain => Processed(s, s.pending)
    case TakeChanges => s.(changes := [])
    case Submit(symbol, id, market, quantity, accepted) => Submitted(s, id, symbol, market, quantity, accepted)
    case OrderMarket(symbol, id, quantity, accepted) => MarketOrdered(s, id, symbol, quantity, accepted)
    case Flatten(symbol, id, accepted) => Liquidated(s, id, symbol, accepted)
    case Fill(id, quantity, closes) => Filled(s, id, quantity, closes)
    case CancelAcknowledged(id) => s.(orders := s.orders - {id})
    case SetTarget(symbol, quantity) => s.(positions :=
        s.positions[symbol := s.PositionOf(symbol).(target := Some(quantity))])
    case SetUnsettled(symbol, amount) =>
      s.(unsettled := if amount == 0.0 then s.unsettled - {symbol} else s.unsettled[symbol := amount])
    case WarmUp(warming) => s.(warmingUp := warming)
  }

  // ---- Safety ----

  /** No live position or order without its security. */
  ghost predicate PositionsBacked(s: State) {
    && (forall symbol :: s.PositionOf(symbol).quantity != 0.0 ==> symbol in s.securities)
    && (forall id :: id in s.orders ==> s.orders[id].symbol in s.securities)
  }

  /** The pending set is the disjoint union of both generation maps, and lies inside the securities. */
  ghost predicate PendingFiled(s: State) {
    && s.pending == s.universeGenerations.Keys + s.directGenerations.Keys
    && s.universeGenerations.Keys !! s.directGenerations.Keys
    && s.pending <= s.securities.Keys && s.contracts <= s.securities.Keys
    && (forall x :: x in s.universeGenerations ==> s.universeGenerations[x] <= s.universeClock)
    && (forall x :: x in s.directGenerations ==> s.directGenerations[x] <= s.directClock)
  }

  ghost predicate Safe(s: State) { PositionsBacked(s) && PendingFiled(s) }

  /** Orders are only placed on present securities; a market order materializes an option contract itself. */
  ghost predicate Disciplined(s: State, a: Action) {
    && (a.Submit? ==> a.symbol in s.securities)
    && (a.OrderMarket? ==> a.symbol in s.securities || a.symbol.securityType.OptionContract?)
  }

  lemma CancelledIsSafe(s: State, symbol: Symbol)
    requires Safe(s)
    ensures Safe(Cancelled(s, symbol)) && Cancelled(s, symbol).securities.Keys == s.securities.Keys
  {
  }

  lemma EnsuredIsSafe(s: State, symbol: Symbol)
    requires Safe(s)
    ensures Safe(Ensured(s, symbol)) && symbol in Ensured(s, symbol).securities
    ensures s.securities.Keys <= Ensured(s, symbol).securities.Keys
  {
    CancelledIsSafe(s, symbol);
    if symbol !in s.securities {
      SecuringIsSafe(Cancelled(s, symbol), symbol);
    }
  }

  lemma SecuringIsSafe(c: State, symbol: Symbol)
    requires Safe(c) && symbol !in c.securities
    ensures Safe(c.(securities := c.securities[symbol := true], subscriptions := c.subscriptions + {symbol}))
  {
  }

  lemma CancelRequestedIsSafe(s: State, symbol: Symbol, onlyResting: bool)
    requires Safe(s)
    ensures Safe(CancelRequested(s, symbol, onlyResting))
  {
  }

  /** A submission keeps the state safe exactly when its symbol has a security or the order is refused. */
  lemma SubmissionIsSafeIff(s: State, id: nat, symbol: Symbol, market: bool, quantity: real, accepted: bool)
    requires Safe(s)
    ensures Safe(Submitted(s, id, symbol, market, quantity, accepted)) <==> symbol in s.securities || !accepted
  {
    var t := Submitted(s, id, symbol, market, quantity, accepted);
    if symbol !in s.securities && accepted {
      assert id in t.orders && t.orders[id].symbol == symbol;
    }
  }

  lemma MarketOrderedIsSafe(s: State, id: nat, symbol: Symbol, quantity: real, accepted: bool)
    requires Safe(s) && (symbol in s.securities || symbol.securityType.OptionContract?)
    ensures Safe(MarketOrdered(s, id, symbol, quantity, accepted))
    ensures s.securities.Keys <= MarketOrdered(s, id, symbol, quantity, accepted).securities.Keys
  {
    var t := if symbol.securityType.OptionContract? then Ensured(s, symbol) else s;
    EnsuredIsSafe(s, symbol);
    SubmissionIsSafeIff(t, id, symbol, true, quantity, accepted);
  }

  lemma LiquidatedIsSafe(s: State, id: nat, symbol: Symbol, accepted: bool)
    requires Safe(s) && symbol in s.securities
    ensures Safe(Liquidated(s, id, symbol, accepted))
    ensures symbol in Liquidated(s, id, symbol, accepted).securities
  {
    var closing := -s.PositionOf(symbol).quantity - Sum(s.orders, MarketRemaining(symbol));
    var c, t := CancelRequested(s, symbol, true), Liquidated(s, id, symbol, accepted);
    CancelRequestedIsSafe(s, symbol, true);
    var m := MarketOrdered(c, id, symbol, closing, accepted);
    MarketOrderedIsSafe(c, id, symbol, closing, accepted);
    OneOf(s, c, m, t, symbol);
  }

  /** Liquidating a symbol keeps the state safe, with or without a security: without one nothing is held. */
  lemma FlattenIsSafe(s: State, id: nat, symbol: Symbol, accepted: bool)
    requires Safe(s)
    ensures Safe(Liquidated(s, id, symbol, accepted))
  {
    if symbol in s.securities {
      LiquidatedIsSafe(s, id, symbol, accepted);
    } else {
      assert s.PositionOf(symbol).quantity == 0.0;
    }
  }

  /** An accepted order on a symbol the algorithm never added stands without a security from the start. */
  lemma UnknownSymbolBreaksSafety(symbol: Symbol, quantity: real)
    ensures Safe(Initial())
    ensures !Safe(Step(Initial(), Submit(symbol, 0, false, quantity, true)))
  {
    SubmissionIsSafeIff(Initial(), 0, symbol, false, quantity, true);
  }

  lemma OneOf(s: State, c: State, m: State, t: State, symbol: Symbol)
    requires t == s || t == c || t == m
    requires Safe(s) && Safe(c) && Safe(m)
    requires symbol in s.securities && symbol in c.securities && symbol in m.securities
    ensures Safe(t) && symbol in t.securities
  {
  }

  lemma DetachedIsSafe(s: State, symbol: Symbol)
    requires Safe(s) && symbol in s.securities
    ensures Safe(Detached(s, symbol))
  {
    assert Detached(s, symbol).securities.Keys == s.securities.Keys;
  }

  lemma RemovedIsSafe(s: State, id: nat, symbol: Symbol, accepted: bool)
    requires Safe(s)
    ensures Safe(Removed(s, id, symbol, accepted))
  {
    if symbol in s.securities || symbol in s.contracts {
      var c := if s.warmingUp then s else CancelRequested(s, symbol, false);
      CancelRequestedIsSafe(s, symbol, false);
      LiquidatedIsSafe(c, id, symbol, accepted);
      DetachedIsSafe(Liquidated(c, id, symbol, accepted), symbol);
    }
  }

  lemma UniverseRequestedIsSafe(s: State, symbol: Symbol)
    requires Safe(s)
    ensures Safe(UniverseRequested(s, symbol))
  {
  }

  lemma FilledIsSafe(s: State, id: nat, quantity: real, closes: bool)
    requires Safe(s)
    ensures Safe(Filled(s, id, quantity, closes))
  {
    if id in s.orders {
      var t := Filled(s, id, quantity, closes);
      forall x | t.PositionOf(x).quantity != 0.0 ensures x in t.securities {
        assert x == s.orders[id].symbol || t.PositionOf(x) == s.PositionOf(x);
      }
    }
  }

  lemma TargetIsSafe(s: State, symbol: Symbol, quantity: real)
    requires Safe(s)
    ensures Safe(s.(positions := s.positions[symbol := s.PositionOf(symbol).(target := Some(quantity))]))
  {
    var t := s.(positions := s.positions[symbol := s.PositionOf(symbol).(target := Some(quantity))]);
    assert forall x :: t.PositionOf(x).quantity == s.PositionOf(x).quantity;
  }

  lemma ContractIsSafe(s: State, symbol: Symbol)
    requires Safe(s)
    ensures Safe(Step(s, AddContract(symbol)))
  {
    EnsuredIsSafe(s, symbol);
  }

  /** Steps that touch neither securities, positions nor pending files. */
  lemma QuietStepIsSafe(s: State, a: Action)
    requires Safe(s)
    requires a.BeginUniversePass? || a.AdvanceTimeStep? || a.TakeChanges? || a.CancelAcknowledged? || a.SetUnsettled?
             || a.WarmUp?
    ensures Safe(Step(s, a))
  {
    var t := Step(s, a);
    SamePositions(s, t);
    assert PendingFiled(t);
  }

  lemma SamePositions(s: State, t: State)
    requires PositionsBacked(s) && t.positions == s.positions && t.securities == s.securities
    requires forall id :: id in t.orders ==> id in s.orders && t.orders[id] == s.orders[id]
    ensures PositionsBacked(t)
  {
    assert forall x :: t.PositionOf(x) == s.PositionOf(x);
  }

  lemma ProcessedIsSafe(s: State, eligible: set<Symbol>)
    requires Safe(s)
    ensures Safe(Processed(s, eligible))
  {
    ProcessedIsBacked(s, eligible);
    PurgedIsFiled(s, Removable(s, eligible));
  }

  lemma PurgedIsFiled(s: State, gone: set<Symbol>)
    requires PendingFiled(s)
    ensures PendingFiled(Purged(s, gone))
  {
  }

  lemma ProcessedIsBacked(s: State, eligible: set<Symbol>)
    requires PositionsBacked(s)
    ensures PositionsBacked(Processed(s, eligible))
  {
    var gone, t := Removable(s, eligible), Processed(s, eligible);
    forall symbol | t.PositionOf(symbol).quantity != 0.0 ensures symbol in t.securities {
      assert symbol !in gone;
      assert t.PositionOf(symbol) == s.PositionOf(symbol);
    }
    forall id | id in t.orders ensures t.orders[id].symbol in t.securities {
      assert s.HasOpenOrder(t.orders[id].symbol);
    }
  }

  lemma StepKeepsSafe(s: State, a: Action)
    requires Safe(s) && Disciplined(s, a)
    ensures Safe(Step(s, a))
  {
    match a
    case Add(symbol) => EnsuredIsSafe(s, symbol);
    case AddContract(symbol) => ContractIsSafe(s, symbol);
    case Remove(symbol, id, accepted) => RemovedIsSafe(s, id, symbol, accepted);
    case RequestUniverse(symbol) => UniverseRequestedIsSafe(s, symbol);
    case Reselect(symbol) => CancelledIsSafe(s, symbol);
    case ProcessUniverse => ProcessedIsSafe(s, EligibleUniverse(s));
    case ProcessDirect => ProcessedIsSafe(s, EligibleDirect(s));
    case Drain => ProcessedIsSafe(s, s.pending);
    case _ => OrderStepIsSafe(s, a);
  }

  lemma OrderStepIsSafe(s: State, a: Action)
    requires Safe(s) && Disciplined(s, a)
    requires !a.Add? && !a.AddContract? && !a.Remove? && !a.RequestUniverse? && !a.Reselect?
    requires !a.ProcessUniverse? && !a.ProcessDirect? && !a.Drain?
    ensures Safe(Step(s, a))
  {
    match a
    case Submit(symbol, id, market, quantity, accepted) =>
      SubmissionIsSafeIff(s, id, symbol, market, quantity, accepted);
    case OrderMarket(symbol, id, quantity, accepted) => MarketOrderedIsSafe(s, id, symbol, quantity, accepted);
    case Flatten(symbol, id, accepted) => FlattenIsSafe(s, id, symbol, accepted);
    case Fill(id, quantity, closes) => FilledIsSafe(s, id, quantity, closes);
    case SetTarget(symbol, quantity) => TargetIsSafe(s, symbol, quantity);
    case _ => QuietStepIsSafe(s, a);
  }
}
