/** What removal requests bring about: when a security leaves, and that a request is carried out. */
module RemovalEffects {
  import opened Results
  import opened Symbols
  import opened MapSums
  import opened Removal
  import opened RemovalRuns

  // ---- When a security leaves ----

  /** A pass looks at the requests of its own clock's earlier generations; the drain at all of them. */
  ghost predicate Due(s: State, a: Action, x: Symbol) {
    || (a.ProcessUniverse? && x in s.universeGenerations && s.universeGenerations[x] < s.universeClock)
    || (a.ProcessDirect? && x in s.directGenerations && s.directGenerations[x] < s.directClock)
    || (a.Drain? && x in s.pending)
  }

  ghost predicate Pass(a: Action) { a.ProcessUniverse? || a.ProcessDirect? || a.Drain? }

  /** In none of the tables of the removal protocol. */
  ghost predicate Gone(s: State, x: Symbol) {
    && x !in s.securities && x !in s.subscriptions && x !in s.contracts && x !in s.positions
    && x !in s.pending && x !in s.universeGenerations && x !in s.directGenerations
  }

  /** Everything both states know of `x`, they know alike. */
  ghost predicate SameOf(s: State, t: State, x: Symbol) {
    && (x in t.securities <==> x in s.securities) && (x in s.securities ==> t.securities[x] == s.securities[x])
    && (x in t.subscriptions <==> x in s.subscriptions) && (x in t.contracts <==> x in s.contracts)
    && (x in t.pending <==> x in s.pending)
    && t.PositionOf(x) == s.PositionOf(x)
    && (x in t.unsettled <==> x in s.unsettled) && (x in s.unsettled ==> t.unsettled[x] == s.unsettled[x])
    && (x in t.universeGenerations <==> x in s.universeGenerations)
    && (x in s.universeGenerations ==> t.universeGenerations[x] == s.universeGenerations[x])
    && (x in t.directGenerations <==> x in s.directGenerations)
    && (x in s.directGenerations ==> t.directGenerations[x] == s.directGenerations[x])
  }

  /** A pass takes out of every table exactly the requests it looks at that are not needed, and leaves every
      other security, the orders, the clocks and the queued changes alone. */
  lemma PassIs(s: State, a: Action, x: Symbol)
    requires PendingFiled(s) && Pass(a)
    ensures var t := Step(s, a);
            && (if Due(s, a, x) && !Needed(s, x) then Gone(t, x) else SameOf(s, t, x))
            && t.orders == s.orders && t.universeClock == s.universeClock && t.directClock == s.directClock
            && t.changes == s.changes && t.warmingUp == s.warmingUp
  {
    SafeToRemoveIff(s, x);
  }

  /** A security leaves in a step if and only if the step is a pass that looks at it and it is not needed. */
  lemma LeavesIff(s: State, a: Action, x: Symbol)
    requires PendingFiled(s) && x in s.securities
    ensures x !in Step(s, a).securities <==> Due(s, a, x) && !Needed(s, x)
  {
    if Pass(a) {
      PassIs(s, a, x);
    } else {
      OnlyPassesRemove(s, a, x);
    }
  }

  // ---- A request is carried out ----

  /** Selects `x` again, or requests its removal again. */
  ghost predicate Touches(a: Action, x: Symbol) {
    || ((a.Add? || a.AddContract? || a.Reselect? || a.Remove? || a.RequestUniverse?) && a.symbol == x)
    || ((a.OrderMarket? || a.Flatten?) && a.symbol == x && x.securityType.OptionContract?)
  }

  datatype Clock = Selections | TimeSteps {
    function File(s: State): map<Symbol, nat> {
      if Selections? then s.universeGenerations else s.directGenerations
    }
    function Now(s: State): nat { if Selections? then s.universeClock else s.directClock }
    function Tick(): Action { if Selections? then BeginUniversePass else AdvanceTimeStep }
    function Process(): Action { if Selections? then ProcessUniverse else ProcessDirect }
  }

  /** Still filed under generation `g` of the clock, or no longer there. */
  ghost predicate FiledOrLeft(s: State, c: Clock, x: Symbol, g: nat) {
    x in s.securities ==> x in c.File(s) && c.File(s)[x] == g
  }

  /** As tradable as it was, and filed as it was. */
  ghost predicate Undisturbed(s: State, t: State, x: Symbol) {
    && (x in t.securities <==> x in s.securities) && (x in s.securities ==> t.securities[x] == s.securities[x])
    && (x in t.universeGenerations <==> x in s.universeGenerations)
    && (x in s.universeGenerations ==> t.universeGenerations[x] == s.universeGenerations[x])
    && (x in t.directGenerations <==> x in s.directGenerations)
    && (x in s.directGenerations ==> t.directGenerations[x] == s.directGenerations[x])
  }

  lemma EnsuringAnother(s: State, y: Symbol, x: Symbol)
    requires y != x
    ensures Undisturbed(s, Ensured(s, y), x)
  {
  }

  lemma OrderingAnother(s: State, id: nat, y: Symbol, quantity: real, accepted: bool, x: Symbol)
    requires !(y == x && x.securityType.OptionContract?)
    ensures Undisturbed(s, MarketOrdered(s, id, y, quantity, accepted), x)
  {
    if y.securityType.OptionContract? {
      EnsuringAnother(s, y, x);
    }
  }

  lemma LiquidatingAnother(s: State, id: nat, y: Symbol, accepted: bool, x: Symbol)
    requires !(y == x && x.securityType.OptionContract?)
    ensures Undisturbed(s, Liquidated(s, id, y, accepted), x)
  {
    var closing := -s.PositionOf(y).quantity - Sum(s.orders, MarketRemaining(y));
    var c := CancelRequested(s, y, true);
    OrderingAnother(c, id, y, closing, accepted, x);
    OneOfUndisturbed(s, c, MarketOrdered(c, id, y, closing, accepted), Liquidated(s, id, y, accepted), x);
  }

  lemma OneOfUndisturbed(s: State, c: State, m: State, t: State, x: Symbol)
    requires t == s || t == c || t == m
    requires Undisturbed(s, c, x) && Undisturbed(c, m, x)
    ensures Undisturbed(s, t, x)
  {
  }

  lemma RemovingAnother(s: State, id: nat, y: Symbol, accepted: bool, x: Symbol)
    requires y != x
    ensures Undisturbed(s, Removed(s, id, y, accepted), x)
  {
    var c := if s.warmingUp then s else CancelRequested(s, y, false);
    LiquidatingAnother(c, id, y, accepted, x);
  }

  /** Nothing but a pass disturbs a security that is not touched. */
  lemma UntouchedIsUndisturbed(s: State, a: Action, x: Symbol)
    requires !Touches(a, x) && !Pass(a)
    ensures Undisturbed(s, Step(s, a), x)
  {
    match a
    case Add(y) => EnsuringAnother(s, y, x);
    case AddContract(y) => EnsuringAnother(s, y, x);
    case Remove(y, id, accepted) => RemovingAnother(s, id, y, accepted, x);
    case OrderMarket(y, id, quantity, accepted) => OrderingAnother(s, id, y, quantity, accepted, x);
    case Flatten(y, id, accepted) => LiquidatingAnother(s, id, y, accepted, x);
    case Reselect(y) => ReselectingAnother(s, y, x);
    case RequestUniverse(y) => RequestingAnother(s, y, x);
    case _ => NothingFiled(s, a);
  }

  lemma ReselectingAnother(s: State, y: Symbol, x: Symbol)
    requires y != x
    ensures Undisturbed(s, Cancelled(s, y), x)
  {
  }

  lemma RequestingAnother(s: State, y: Symbol, x: Symbol)
    requires y != x
    ensures Undisturbed(s, UniverseRequested(s, y), x)
  {
  }

  lemma NothingFiled(s: State, a: Action)
    requires Quiet(a) && !a.Reselect? && !a.RequestUniverse?
    ensures var t := Step(s, a);
            && t.securities == s.securities && t.universeGenerations == s.universeGenerations
            && t.directGenerations == s.directGenerations
  {
  }

  lemma StaysFiled(s: State, a: Action, c: Clock, x: Symbol, g: nat)
    requires PendingFiled(s) && FiledOrLeft(s, c, x, g) && !Touches(a, x)
    ensures FiledOrLeft(Step(s, a), c, x, g)
  {
    if Pass(a) {
      PassIs(s, a, x);
    } else {
      UntouchedIsUndisturbed(s, a, x);
    }
  }

  lemma {:induction false} StaysFiledOverRun(s: State, actions: seq<Action>, c: Clock, x: Symbol, g: nat)
    requires Safe(s) && DisciplinedRun(s, actions) && FiledOrLeft(s, c, x, g)
    requires forall a :: a in actions ==> !Touches(a, x)
    ensures FiledOrLeft(Run(s, actions), c, x, g)
    decreases |actions|
  {
    if actions != [] {
      StepKeepsSafe(s, actions[0]);
      StaysFiled(s, actions[0], c, x, g);
      StaysFiledOverRun(Step(s, actions[0]), actions[1..], c, x, g);
    }
  }

  lemma ClockSteps(s: State, a: Action, c: Clock)
    ensures c.Now(Step(s, a)) == c.Now(s) + if a == c.Tick() then 1 else 0
  {
    match a
    case Add(y) => EnsuredKeeps(s, y, y);
    case AddContract(y) => EnsuredKeeps(s, y, y);
    case Remove(y, id, accepted) =>
      LiquidatedKeeps(if s.warmingUp then s else CancelRequested(s, y, false), id, y, accepted, y);
    case OrderMarket(y, id, quantity, accepted) => MarketOrderedKeeps(s, id, y, quantity, accepted, y);
    case Flatten(y, id, accepted) => LiquidatedKeeps(s, id, y, accepted, y);
    case _ => OtherClockSteps(s, a, c);
  }

  lemma OtherClockSteps(s: State, a: Action, c: Clock)
    requires !a.Add? && !a.AddContract? && !a.Remove? && !a.OrderMarket? && !a.Flatten?
    ensures c.Now(Step(s, a)) == c.Now(s) + if a == c.Tick() then 1 else 0
  {
  }

  /** No clock goes back, and one that ticks moves on. */
  lemma {:induction false} ClockMovesOn(s: State, actions: seq<Action>, c: Clock)
    ensures c.Now(Run(s, actions)) >= c.Now(s) + if c.Tick() in actions then 1 else 0
    decreases |actions|
  {
    if actions != [] {
      ClockSteps(s, actions[0], c);
      ClockMovesOn(Step(s, actions[0]), actions[1..], c);
      assert actions == [actions[0]] + actions[1..];
    }
  }

  lemma {:induction false} RunAppend(s: State, actions: seq<Action>, last: Action)
    ensures Run(s, actions + [last]) == Step(Run(s, actions), last)
    decreases |actions|
  {
    if actions == [] {
      assert [last][1..] == [];
    } else {
      assert (actions + [last])[1..] == actions[1..] + [last];
      RunAppend(Step(s, actions[0]), actions[1..], last);
    }
  }

  /** Whatever happens in between, short of the security being selected or requested again, the first pass
      after a tick of its clock that finds it unneeded carries the request out. */
  lemma CarriedOut(s: State, actions: seq<Action>, c: Clock, x: Symbol)
    requires Safe(s) && DisciplinedRun(s, actions) && x in c.File(s) && c.Tick() in actions
    requires forall a :: a in actions ==> !Touches(a, x)
    requires !Needed(Run(s, actions), x)
    ensures var t := Run(s, actions + [c.Process()]); x !in t.securities && x !in t.pending
  {
    StaysFiledOverRun(s, actions, c, x, c.File(s)[x]);
    ClockMovesOn(s, actions, c);
    RunKeepsSafe(s, actions);
    assert c.File(s)[x] <= c.Now(s);
    PassCarriesOut(Run(s, actions), c, x, c.File(s)[x]);
    RunAppend(s, actions, c.Process());
  }

  lemma PassCarriesOut(s: State, c: Clock, x: Symbol, g: nat)
    requires PendingFiled(s) && FiledOrLeft(s, c, x, g) && g < c.Now(s) && !Needed(s, x)
    ensures var t := Step(s, c.Process()); x !in t.securities && x !in t.pending
  {
    PassIs(s, c.Process(), x);
  }

  /** Each request files its security under the present generation of its clock. */
  lemma RequestsAreFiled(s: State, id: nat, x: Symbol, accepted: bool)
    requires x in s.securities
    ensures var t := Step(s, RequestUniverse(x)); x in Selections.File(t) && Selections.File(t)[x] == s.universeClock
    ensures var t := Step(s, Remove(x, id, accepted));
            x in TimeSteps.File(t) && TimeSteps.File(t)[x] == s.directClock
  {
    RemovedFiles(s, id, x, accepted, x);
  }

  /** A universe request of an unneeded security is carried out by the next selection's pass. */
  lemma UniverseRequestIsCarriedOut(s: State, x: Symbol)
    requires Safe(s) && x in s.securities && !Needed(s, x)
    ensures Gone(Step(Step(Step(s, RequestUniverse(x)), BeginUniversePass), ProcessUniverse), x)
  {
    var filed := Step(s, RequestUniverse(x));
    var t := Step(filed, BeginUniversePass);
    UniverseRequestedIsSafe(s, x);
    assert PendingFiled(t);
    UseIsUnchanged(s, t, x);
    PassIs(t, ProcessUniverse, x);
  }

  /** A direct request of an unneeded security is carried out by the next time step's pass. */
  lemma DirectRequestIsCarriedOut(s: State, id: nat, x: Symbol, accepted: bool)
    requires Safe(s) && x in s.securities && !Needed(s, x)
    ensures Gone(Step(Step(Step(s, Remove(x, id, accepted)), AdvanceTimeStep), ProcessDirect), x)
  {
    UnneededIsDetached(s, id, x, accepted);
    DetachedIsCarriedOut(s, x);
  }

  lemma DetachedIsCarriedOut(s: State, x: Symbol)
    requires Safe(s) && x in s.securities && !Needed(s, x)
    ensures Gone(Step(Step(Detached(s, x), AdvanceTimeStep), ProcessDirect), x)
  {
    var t := Step(Detached(s, x), AdvanceTimeStep);
    DetachedIsSafe(s, x);
    assert PendingFiled(t);
    UseIsUnchanged(s, t, x);
    PassIs(t, ProcessDirect, x);
  }

  lemma UseIsUnchanged(s: State, t: State, x: Symbol)
    requires t.positions == s.positions && t.orders == s.orders && t.unsettled == s.unsettled
    requires t.securities.Keys == s.securities.Keys
    ensures Needed(t, x) <==> Needed(s, x)
  {
    assert forall y :: y in t.securities <==> y in s.securities;
  }

  /** Nothing is held or on order, so there is nothing to cancel or to liquidate. */
  lemma UnneededIsDetached(s: State, id: nat, x: Symbol, accepted: bool)
    requires x in s.securities && !Needed(s, x)
    ensures Removed(s, id, x, accepted) == Detached(s, x)
  {
    assert CancelRequested(s, x, false).orders == s.orders;
  }

  // ---- A removed security takes no orders ----

  ghost predicate Untradable(s: State, x: Symbol) { x in s.securities ==> !s.securities[x] }

  /** The open orders on `x` are among those of `s`. */
  ghost predicate NoNewOrders(s: State, t: State, x: Symbol) {
    forall id :: id in t.orders && t.orders[id].symbol == x ==> id in s.orders && s.orders[id].symbol == x
  }

  lemma OrderingTakesNone(s: State, id: nat, y: Symbol, quantity: real, accepted: bool, x: Symbol)
    requires Untradable(s, x) && (y == x ==> x in s.securities && !x.securityType.OptionContract?)
    ensures NoNewOrders(s, MarketOrdered(s, id, y, quantity, accepted), x)
  {
    if y.securityType.OptionContract? {
      EnsuringAnother(s, y, x);
    }
  }

  lemma LiquidatingTakesNone(s: State, id: nat, y: Symbol, accepted: bool, x: Symbol)
    requires PositionsBacked(s) && Untradable(s, x) && !(y == x && x.securityType.OptionContract?)
    ensures NoNewOrders(s, Liquidated(s, id, y, accepted), x)
  {
    if s.PositionOf(y).quantity != 0.0 {
      var closing := -s.PositionOf(y).quantity - Sum(s.orders, MarketRemaining(y));
      var c := CancelRequested(s, y, true);
      OrderingTakesNone(c, id, y, closing, accepted, x);
      OneOfTakesNone(s, c, MarketOrdered(c, id, y, closing, accepted), Liquidated(s, id, y, accepted), x);
    }
  }

  lemma OneOfTakesNone(s: State, c: State, m: State, t: State, x: Symbol)
    requires t == s || t == c || t == m
    requires NoNewOrders(s, c, x) && NoNewOrders(c, m, x)
    ensures NoNewOrders(s, t, x)
  {
  }

  lemma RemovingTakesNone(s: State, id: nat, y: Symbol, accepted: bool, x: Symbol)
    requires PositionsBacked(s) && Untradable(s, x) && y != x
    ensures NoNewOrders(s, Removed(s, id, y, accepted), x)
  {
    var c := if s.warmingUp then s else CancelRequested(s, y, false);
    assert PositionsBacked(c) by {
      assert forall z :: c.PositionOf(z) == s.PositionOf(z);
    }
    LiquidatingTakesNone(c, id, y, accepted, x);
  }

  lemma UntradableTakesNoOrder(s: State, a: Action, x: Symbol)
    requires PositionsBacked(s) && Disciplined(s, a) && Untradable(s, x) && !Touches(a, x)
    ensures NoNewOrders(s, Step(s, a), x)
  {
    match a
    case Remove(y, id, accepted) => RemovingTakesNone(s, id, y, accepted, x);
    case OrderMarket(y, id, quantity, accepted) => OrderingTakesNone(s, id, y, quantity, accepted, x);
    case Flatten(y, id, accepted) => LiquidatingTakesNone(s, id, y, accepted, x);
    case Submit(y, id, market, quantity, accepted) => SubmittingTakesNone(s, id, y, market, quantity, accepted, x);
    case Add(y) => SelectingTakesNone(s, y, x);
    case AddContract(y) => SelectingTakesNone(s, y, x);
    case Fill(id, quantity, closes) => FillingTakesNone(s, id, quantity, closes, x);
    case CancelAcknowledged(id) =>
    case _ => OthersKeepOrders(s, a);
  }

  lemma FillingTakesNone(s: State, id: nat, quantity: real, closes: bool, x: Symbol)
    ensures NoNewOrders(s, Filled(s, id, quantity, closes), x)
  {
  }

  lemma SubmittingTakesNone(s: State, id: nat, y: Symbol, market: bool, quantity: real, accepted: bool, x: Symbol)
    requires Untradable(s, x) && y in s.securities
    ensures NoNewOrders(s, Submitted(s, id, y, market, quantity, accepted), x)
  {
  }

  lemma SelectingTakesNone(s: State, y: Symbol, x: Symbol)
    ensures NoNewOrders(s, Step(s, Add(y)), x) && NoNewOrders(s, Step(s, AddContract(y)), x)
  {
  }

  lemma OthersKeepOrders(s: State, a: Action)
    requires !a.Remove? && !a.OrderMarket? && !a.Flatten? && !a.Submit? && !a.Add? && !a.AddContract?
    requires !a.Fill? && !a.CancelAcknowledged?
    ensures Step(s, a).orders == s.orders
  {
  }

  lemma StaysUntradable(s: State, a: Action, x: Symbol)
    requires PendingFiled(s) && Untradable(s, x) && !Touches(a, x)
    ensures Untradable(Step(s, a), x)
  {
    if Pass(a) {
      PassIs(s, a, x);
    } else {
      UntouchedIsUndisturbed(s, a, x);
    }
  }

  lemma {:induction false} UntradableOverRun(s: State, actions: seq<Action>, x: Symbol)
    requires Safe(s) && DisciplinedRun(s, actions) && Untradable(s, x)
    requires forall a :: a in actions ==> !Touches(a, x)
    ensures NoNewOrders(s, Run(s, actions), x)
    decreases |actions|
  {
    if actions != [] {
      UntradableTakesNoOrder(s, actions[0], x);
      StaysUntradable(s, actions[0], x);
      StepKeepsSafe(s, actions[0]);
      UntradableOverRun(Step(s, actions[0]), actions[1..], x);
    }
  }

  /** From its removal on, whatever happens short of the security being selected or requested again, no order
      on it is opened: those still open are the ones the removal left. */
  lemma RemovedTakesNoOrders(s: State, id: nat, x: Symbol, accepted: bool, actions: seq<Action>)
    requires Safe(s) && x in s.securities
    requires var t := Step(s, Remove(x, id, accepted)); DisciplinedRun(t, actions)
    requires forall a :: a in actions ==> !Touches(a, x)
    ensures var t := Step(s, Remove(x, id, accepted)); NoNewOrders(t, Run(t, actions), x)
  {
    RemovedIsSafe(s, id, x, accepted);
    UntradableOverRun(Step(s, Remove(x, id, accepted)), actions, x);
  }
}
