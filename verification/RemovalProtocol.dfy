/** The algorithm's removal protocol over its mutable tables. Order ids and the brokerage's answer to a
    submission come from outside. */
module RemovalProtocol {
  import opened Results
  import opened Symbols
  import opened MapSums
  import opened Sorting
  import opened Removal
  import opened RemovalRuns
  import opened RemovalEffects

  class QcAlgorithm {
    var securities: map<Symbol, bool>
    var subscriptions: set<Symbol>
    var contracts: set<Symbol>
    var positions: map<Symbol, Position>
    var unsettled: map<Symbol, real>
    var orders: map<nat, Order>
    var pending: set<Symbol>
    var universeGenerations: map<Symbol, nat>
    var directGenerations: map<Symbol, nat>
    var universeClock: nat
    var directClock: nat
    var changes: seq<Symbol>
    var warmingUp: bool

    function State(): Removal.State
      reads this
    {
      Removal.State(securities, subscriptions, contracts, positions, unsettled, orders, pending,
                    universeGenerations, directGenerations, universeClock, directClock, changes, warmingUp)
    }

    ghost predicate Valid()
      reads this
    {
      Safe(State())
    }

    constructor ()
      ensures State() == Initial() && Valid()
    {
      securities, subscriptions, contracts, positions, unsettled, orders := map[], {}, {}, map[], map[], map[];
      pending, universeGenerations, directGenerations := {}, map[], map[];
      universeClock, directClock, changes, warmingUp := 0, 0, [], false;
    }

    method Unpend(symbol: Symbol)
      modifies this`pending, this`universeGenerations, this`directGenerations
      ensures pending == old(pending) - {symbol}
      ensures universeGenerations == old(universeGenerations) - {symbol}
      ensures directGenerations == old(directGenerations) - {symbol}
    {
      pending := pending - {symbol};
      universeGenerations := universeGenerations - {symbol};
      directGenerations := directGenerations - {symbol};
    }

    method CancelPendingSecurityRemoval(symbol: Symbol) returns (removed: bool)
      modifies this
      ensures State() == Cancelled(old(State()), symbol) && (old(Valid()) ==> Valid())
      ensures removed <==> symbol in old(pending)
    {
      if Valid() { CancelledIsSafe(State(), symbol); }
      removed := symbol in pending;
      Unpend(symbol);
      changes := Without(changes, symbol);
      if removed && symbol in securities {
        securities := securities[symbol := true];
      }
    }

    /** `add_equity_symbol`, `ensure_base_security` and `ensure_option_security`. */
    method EnsureSecurity(symbol: Symbol)
      modifies this
      ensures State() == Ensured(old(State()), symbol) && (old(Valid()) ==> Valid())
    {
      if Valid() { EnsuredIsSafe(State(), symbol); }
      var _ := CancelPendingSecurityRemoval(symbol);
      if symbol in securities { return; }
      subscriptions := subscriptions + {symbol};
      securities := securities[symbol := true];
    }

    method SubmitOrder(id: nat, symbol: Symbol, market: bool, quantity: real, accepted: bool)
      modifies this`orders
      ensures State() == Submitted(old(State()), id, symbol, market, quantity, accepted)
      ensures old(Valid()) ==> (Valid() <==> symbol in securities || !accepted)
    {
      if Valid() { SubmissionIsSafeIff(State(), id, symbol, market, quantity, accepted); }
      if symbol in securities && !securities[symbol] { return; }
      if !accepted { return; }
      orders := orders[id := Order(symbol, market, quantity, false)];
    }

    /** Request cancellation of the symbol's open orders; they stay open until acknowledged. */
    method RequestCancels(symbol: Symbol, onlyResting: bool)
      modifies this`orders
      ensures State() == CancelRequested(old(State()), symbol, onlyResting)
    {
      ghost var goal := CancelRequested(State(), symbol, onlyResting).orders;
      var rest := orders.Keys;
      while rest != {}
        invariant rest <= orders.Keys == old(orders).Keys
        invariant forall id :: id in orders ==> orders[id] == if id in rest then old(orders)[id] else goal[id]
        decreases rest
      {
        var id :| id in rest;
        rest := rest - {id};
        if orders[id].symbol == symbol && !(onlyResting && orders[id].market) {
          orders := orders[id := orders[id].(cancelPending := true)];
        }
      }
      assert orders == goal;
    }

    method MarketQuantity(symbol: Symbol) returns (total: real)
      ensures total == Sum(orders, MarketRemaining(symbol))
    {
      total := 0.0;
      var rest := orders.Keys;
      assert Restrict(orders, rest) == orders;
      while rest != {}
        invariant rest <= orders.Keys
        invariant total + Sum(Restrict(orders, rest), MarketRemaining(symbol)) == Sum(orders, MarketRemaining(symbol))
        decreases rest
      {
        var id :| id in rest;
        RestrictPick(orders, rest, id, MarketRemaining(symbol));
        rest := rest - {id};
        if orders[id].symbol == symbol && orders[id].market {
          total := total + orders[id].remaining;
        }
      }
    }

    method MarketOrder(id: nat, symbol: Symbol, quantity: real, accepted: bool)
      modifies this
      ensures State() == MarketOrdered(old(State()), id, symbol, quantity, accepted)
      ensures old(Valid()) && (symbol in old(securities) || symbol.securityType.OptionContract?) ==> Valid()
    {
      if Valid() && (symbol in securities || symbol.securityType.OptionContract?) {
        MarketOrderedIsSafe(State(), id, symbol, quantity, accepted);
      }
      if symbol.securityType.OptionContract? {
        EnsureSecurity(symbol);
      }
      SubmitOrder(id, symbol, true, quantity, accepted);
    }

    /** `liquidate` for one symbol: pending market orders are on their way and are deducted. */
    method Liquidate(id: nat, symbol: Symbol, accepted: bool)
      modifies this
      ensures State() == Liquidated(old(State()), id, symbol, accepted) && (old(Valid()) ==> Valid())
    {
      if Valid() { FlattenIsSafe(State(), id, symbol, accepted); }
      var quantity := State().PositionOf(symbol).quantity;
      if quantity == 0.0 { return; }
      if AlreadyClosing(State(), symbol) { return; }
      var inFlight := MarketQuantity(symbol);
      RequestCancels(symbol, true);
      var closing := -quantity - inFlight;
      if closing != 0.0 {
        MarketOrder(id, symbol, closing, accepted);
      }
    }

    /** `remove_security`, for a symbol that is not a canonical option. */
    method RemoveSecurity(symbol: Symbol, id: nat, accepted: bool) returns (existed: bool)
      modifies this
      ensures State() == Removed(old(State()), id, symbol, accepted) && (old(Valid()) ==> Valid())
      ensures existed <==> symbol in old(securities) || symbol in old(contracts)
    {
      if Valid() { RemovedIsSafe(State(), id, symbol, accepted); }
      existed := symbol in securities || symbol in contracts;
      if !existed { return; }
      if !warmingUp {
        RequestCancels(symbol, false);
      }
      Liquidate(id, symbol, accepted);
      Detach(symbol);
    }

    method Detach(symbol: Symbol)
      modifies this
      ensures State() == Detached(old(State()), symbol)
    {
      if symbol in securities {
        securities := securities[symbol := false];
      }
      Pend(symbol);
      if symbol !in changes {
        changes := changes + [symbol];
      }
    }

    /** File a pending symbol under the direct clock. */
    method Pend(symbol: Symbol)
      modifies this`pending, this`universeGenerations, this`directGenerations
      ensures pending == old(pending) + {symbol}
      ensures universeGenerations == old(universeGenerations) - {symbol}
      ensures directGenerations == old(directGenerations)[symbol := directClock]
    {
      pending := pending + {symbol};
      universeGenerations := universeGenerations - {symbol};
      directGenerations := directGenerations[symbol := directClock];
    }

    method RequestUniverseSecurityRemoval(symbol: Symbol) returns (requested: bool)
      modifies this
      ensures State() == UniverseRequested(old(State()), symbol) && (old(Valid()) ==> Valid())
      ensures requested <==> symbol in old(securities)
    {
      if Valid() { UniverseRequestedIsSafe(State(), symbol); }
      requested := symbol in securities;
      if !requested { return; }
      pending := pending + {symbol};
      directGenerations := directGenerations - {symbol};
      universeGenerations := universeGenerations[symbol := universeClock];
    }

    method BeginUniverseSelectionPass()
      modifies this`universeClock
      ensures State() == Step(old(State()), BeginUniversePass)
    {
      universeClock := universeClock + 1;
    }

    method AdvanceRemovalTimeStep()
      modifies this`directClock
      ensures State() == Step(old(State()), AdvanceTimeStep)
    {
      directClock := directClock + 1;
    }

    /** `SecurityManager::remove`: an invested security is never detached. */
    method DetachFromManager(symbol: Symbol) returns (removed: bool)
      modifies this`securities
      ensures removed <==> symbol in old(securities) && (symbol in positions ==> positions[symbol].quantity == 0.0)
      ensures securities == if removed then old(securities) - {symbol} else old(securities)
    {
      if symbol in securities && symbol in positions && positions[symbol].quantity != 0.0 { return false; }
      removed := symbol in securities;
      securities := securities - {symbol};
    }

    method RemoveHoldingIfFlat(symbol: Symbol)
      modifies this`positions, this`unsettled
      ensures positions == if symbol in old(positions) && old(positions)[symbol].Idle() then old(positions) - {symbol}
              else old(positions)
      ensures unsettled == if symbol in old(positions) && old(positions)[symbol].Idle() then old(unsettled) - {symbol}
              else old(unsettled)
    {
      if symbol in positions && positions[symbol].Idle() {
        positions := positions - {symbol};
        unsettled := unsettled - {symbol};
      }
    }

    method Unfile(symbol: Symbol)
      modifies this`contracts, this`pending, this`universeGenerations, this`directGenerations
      ensures contracts == old(contracts) - {symbol} && pending == old(pending) - {symbol}
      ensures universeGenerations == old(universeGenerations) - {symbol}
      ensures directGenerations == old(directGenerations) - {symbol}
    {
      contracts := contracts - {symbol};
      Unpend(symbol);
    }

    /** One removable symbol leaves every table. */
    method Purge(symbol: Symbol) returns (removed: bool)
      requires (symbol in positions ==> positions[symbol].Idle()) && symbol in securities
      modifies this
      ensures removed && State() == Purged(old(State()), {symbol})
    {
      ghost var before := State();
      subscriptions := subscriptions - {symbol};
      removed := DetachFromManager(symbol);
      if !removed { return; }
      RemoveHoldingIfFlat(symbol);
      Unfile(symbol);
      PurgedOne(before, symbol, State());
    }

    /** `process_pending_security_removal_ids`, in whatever order the tables yield the symbols. */
    method ProcessIds(eligible: set<Symbol>) returns (removed: seq<Symbol>)
      requires Valid()
      modifies this
      ensures Valid() && State() == Processed(old(State()), eligible)
      ensures ListsRemoved(removed, Removable(old(State()), eligible))
      ensures forall x :: x in removed <==> x in eligible && x in old(pending) && !Needed(old(State()), x)
    {
      ProcessedIsSafe(State(), eligible);
      forall x { SafeToRemoveIff(State(), x); }
      removed := PurgeAll(Removable(State(), eligible));
    }

    method PurgeAll(removable: set<Symbol>) returns (removed: seq<Symbol>)
      requires forall x :: x in removable ==> x in securities && (x in positions ==> positions[x].Idle())
      modifies this
      ensures State() == Purged(old(State()), removable)
      ensures ListsRemoved(removed, removable)
    {
      ghost var before := State();
      removed := [];
      var rest := removable;
      ghost var done: set<Symbol> := {};
      PurgedNothing(before);
      while rest != {}
        invariant rest + done == removable && rest !! done
        invariant ListsRemoved(removed, done)
        invariant State() == Purged(before, done)
        decreases rest
      {
        var symbol :| symbol in rest;
        PurgeNext(symbol, before, done);
        ListsOneMore(removed, done, symbol);
        rest := rest - {symbol};
        removed := removed + [symbol];
        done := done + {symbol};
      }
      assert done == removable;
    }

    /** The next symbol follows the ones that have left `before`. */
    method PurgeNext(symbol: Symbol, ghost before: Removal.State, ghost done: set<Symbol>)
      requires State() == Purged(before, done) && symbol !in done
      requires symbol in before.securities && (symbol in before.positions ==> before.positions[symbol].Idle())
      modifies this
      ensures State() == Purged(before, done + {symbol})
    {
      PurgedKeeps(before, done, symbol);
      var _ := Purge(symbol);
      PurgedTwice(before, done, symbol);
    }

    method ProcessPendingUniverseSecurityRemovals() returns (removed: seq<Symbol>)
      requires Valid()
      modifies this
      ensures Valid() && State() == Step(old(State()), ProcessUniverse)
      ensures ListsRemoved(removed, Removable(old(State()), EligibleUniverse(old(State()))))
      ensures forall x :: x in removed <==> Due(old(State()), ProcessUniverse, x) && !Needed(old(State()), x)
    {
      removed := ProcessIds(set x | x in universeGenerations && universeGenerations[x] < universeClock);
    }

    method ProcessPendingDirectSecurityRemovals() returns (removed: seq<Symbol>)
      requires Valid()
      modifies this
      ensures Valid() && State() == Step(old(State()), ProcessDirect)
      ensures ListsRemoved(removed, Removable(old(State()), EligibleDirect(old(State()))))
      ensures forall x :: x in removed <==> Due(old(State()), ProcessDirect, x) && !Needed(old(State()), x)
    {
      removed := ProcessIds(set x | x in directGenerations && directGenerations[x] < directClock);
    }

    /** The administrative drain of every safe pending removal. */
    method ProcessPendingSecurityRemovals() returns (removed: seq<Symbol>)
      requires Valid()
      modifies this
      ensures Valid() && State() == Step(old(State()), Drain)
      ensures ListsRemoved(removed, Removable(old(State()), old(pending)))
      ensures forall x :: x in removed <==> Due(old(State()), Drain, x) && !Needed(old(State()), x)
    {
      removed := ProcessIds(pending);
    }

    method TakePendingRemovedSecurityChanges() returns (taken: seq<Symbol>)
      modifies this`changes
      ensures taken == old(changes) && State() == Step(old(State()), TakeChanges)
    {
      taken := changes;
      changes := [];
    }

    method AddOptionContract(symbol: Symbol)
      modifies this
      ensures State() == Step(old(State()), AddContract(symbol))
    {
      EnsureSecurity(symbol);
      contracts := contracts + {symbol};
    }

    /** What reaches the tables from the brokerage: a fill of an open order, or the end of one. */
    method TakeFill(id: nat, quantity: real, closes: bool)
      modifies this`positions, this`orders
      ensures State() == Filled(old(State()), id, quantity, closes)
    {
      if id in orders {
        var order := orders[id];
        var held := State().PositionOf(order.symbol);
        positions := positions[order.symbol := held.(quantity := held.quantity + quantity)];
        orders := if closes then orders - {id} else orders[id := order.(remaining := order.remaining - quantity)];
      }
    }

    method TakeCancelAcknowledgement(id: nat)
      modifies this`orders
      ensures State() == Step(old(State()), CancelAcknowledged(id))
    {
      orders := orders - {id};
    }

    method SetHoldingTarget(symbol: Symbol, quantity: real)
      modifies this`positions
      ensures State() == Step(old(State()), SetTarget(symbol, quantity))
    {
      positions := positions[symbol := State().PositionOf(symbol).(target := Some(quantity))];
    }

    method SetUnsettledCash(symbol: Symbol, amount: real)
      modifies this`unsettled
      ensures State() == Step(old(State()), SetUnsettled(symbol, amount))
    {
      unsettled := if amount == 0.0 then unsettled - {symbol} else unsettled[symbol := amount];
    }

    method SetWarmingUp(warming: bool)
      modifies this`warmingUp
      ensures State() == Step(old(State()), WarmUp(warming))
    {
      warmingUp := warming;
    }
  }

  /** One call on the algorithm, or one thing that happens to it. */
  method Perform(c: QcAlgorithm, a: Action)
    requires c.Valid()
    modifies c
    ensures c.State() == Step(old(c.State()), a)
  {
    match a {
      case Add(symbol) => c.EnsureSecurity(symbol);
      case AddContract(symbol) => c.AddOptionContract(symbol);
      case Remove(symbol, id, accepted) => var _ := c.RemoveSecurity(symbol, id, accepted);
      case RequestUniverse(symbol) => var _ := c.RequestUniverseSecurityRemoval(symbol);
      case Reselect(symbol) => var _ := c.CancelPendingSecurityRemoval(symbol);
      case BeginUniversePass => c.BeginUniverseSelectionPass();
      case AdvanceTimeStep => c.AdvanceRemovalTimeStep();
      case ProcessUniverse => var _ := c.ProcessPendingUniverseSecurityRemovals();
      case ProcessDirect => var _ := c.ProcessPendingDirectSecurityRemovals();
      case Drain => var _ := c.ProcessPendingSecurityRemovals();
      case TakeChanges => var _ := c.TakePendingRemovedSecurityChanges();
      case Submit(symbol, id, market, quantity, accepted) => c.SubmitOrder(id, symbol, market, quantity, accepted);
      case OrderMarket(symbol, id, quantity, accepted) => c.MarketOrder(id, symbol, quantity, accepted);
      case Flatten(symbol, id, accepted) => c.Liquidate(id, symbol, accepted);
      case Fill(id, quantity, closes) => c.TakeFill(id, quantity, closes);
      case CancelAcknowledged(id) => c.TakeCancelAcknowledgement(id);
      case SetTarget(symbol, quantity) => c.SetHoldingTarget(symbol, quantity);
      case SetUnsettled(symbol, amount) => c.SetUnsettledCash(symbol, amount);
      case WarmUp(warming) => c.SetWarmingUp(warming);
    }
  }

  /** A whole run of the algorithm ends where the state machine does, safe. */
  method Operate(actions: seq<Action>) returns (c: QcAlgorithm)
    requires DisciplinedRun(Initial(), actions)
    ensures fresh(c) && c.State() == Run(Initial(), actions) && c.Valid()
  {
    c := new QcAlgorithm();
    for i := 0 to |actions|
      invariant fresh(c) && c.Valid() && DisciplinedRun(c.State(), actions[i..])
      invariant Run(c.State(), actions[i..]) == Run(Initial(), actions)
    {
      assert actions[i..][0] == actions[i] && actions[i..][1..] == actions[i + 1..];
      StepKeepsSafe(c.State(), actions[i]);
      Perform(c, actions[i]);
    }
  }

  /** `removed` lists the set, each symbol once, in some order. */
  ghost predicate ListsRemoved(removed: seq<Symbol>, all: set<Symbol>) {
    && (forall symbol :: symbol in removed <==> symbol in all)
    && forall i, j :: 0 <= i < j < |removed| ==> removed[i] != removed[j]
  }

  lemma ListsOneMore(removed: seq<Symbol>, all: set<Symbol>, symbol: Symbol)
    requires ListsRemoved(removed, all) && symbol !in all
    ensures ListsRemoved(removed + [symbol], all + {symbol})
  {
  }

  lemma PurgedNothing(s: Removal.State)
    ensures Purged(s, {}) == s
  {
  }

  lemma PurgedTwice(s: Removal.State, done: set<Symbol>, symbol: Symbol)
    ensures Purged(Purged(s, done), {symbol}) == Purged(s, done + {symbol})
  {
    var a, b := Purged(Purged(s, done), {symbol}), Purged(s, done + {symbol});
    assert a.securities == b.securities && a.positions == b.positions;
    assert a.unsettled == b.unsettled;
    assert a.universeGenerations == b.universeGenerations && a.directGenerations == b.directGenerations;
    assert a.subscriptions == b.subscriptions && a.contracts == b.contracts && a.pending == b.pending;
  }

  lemma PurgedKeeps(s: Removal.State, done: set<Symbol>, symbol: Symbol)
    requires symbol !in done && symbol in s.securities && (symbol in s.positions ==> s.positions[symbol].Idle())
    ensures var t := Purged(s, done);
            symbol in t.securities && (symbol in t.positions ==> t.positions[symbol].Idle())
  {
  }

  /** For an idle symbol the guarded removal of its entries is the unguarded one. */
  lemma PurgedOne(s: Removal.State, symbol: Symbol, t: Removal.State)
    requires symbol in s.positions ==> s.positions[symbol].Idle()
    requires t.positions == if symbol in s.positions && s.positions[symbol].Idle() then s.positions - {symbol}
             else s.positions
    requires t.unsettled == if symbol in s.positions && s.positions[symbol].Idle() then s.unsettled - {symbol}
             else s.unsettled
    requires t.securities == s.securities - {symbol} && t.subscriptions == s.subscriptions - {symbol}
    requires t.contracts == s.contracts - {symbol} && t.pending == s.pending - {symbol}
    requires t.universeGenerations == s.universeGenerations - {symbol}
             && t.directGenerations == s.directGenerations - {symbol}
    requires t.orders == s.orders && t.universeClock == s.universeClock && t.directClock == s.directClock
    requires t.changes == s.changes && t.warmingUp == s.warmingUp
    ensures t == Purged(s, {symbol})
  {
  }
}
