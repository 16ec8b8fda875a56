/** What every run keeps of the tables a removal touches: subscriptions, tradability and announced changes. */
module RemovalOrder {
  import opened Results
  import opened Symbols
  import opened MapSums
  import opened Removal
  import opened RemovalRuns

  ghost predicate Distinct(changes: seq<Symbol>) {
    forall i, j :: 0 <= i < j < |changes| ==> changes[i] != changes[j]
  }

  /** Exactly the present securities are subscribed, a security is untradable only while its removal is pending, and
      no removal is announced twice. */
  ghost predicate Orderly(s: State) {
    && s.subscriptions == s.securities.Keys
    && (forall x :: x in s.securities && !s.securities[x] ==> x in s.pending)
    && Distinct(s.changes)
  }

  lemma {:induction false} WithoutStaysDistinct(changes: seq<Symbol>, x: Symbol)
    requires Distinct(changes)
    ensures Distinct(Without(changes, x))
  {
    if changes != [] {
      var rest := Without(changes[1..], x);
      WithoutStaysDistinct(changes[1..], x);
      forall i | 0 <= i < |rest| ensures rest[i] != changes[0] {
        assert rest[i] in changes[1..];
      }
    }
  }

  lemma CancelledIsOrderly(s: State, x: Symbol)
    requires Orderly(s)
    ensures Orderly(Cancelled(s, x))
  {
    WithoutStaysDistinct(s.changes, x);
  }

  lemma EnsuredIsOrderly(s: State, x: Symbol)
    requires Orderly(s)
    ensures Orderly(Ensured(s, x))
  {
    CancelledIsOrderly(s, x);
  }

  /** Orders and positions have no part in it. */
  lemma SameTables(s: State, t: State)
    requires Orderly(s) && t.subscriptions == s.subscriptions && t.securities == s.securities
    requires t.pending == s.pending && t.changes == s.changes
    ensures Orderly(t)
  {
  }

  lemma OrderedIsOrderly(s: State, id: nat, x: Symbol, quantity: real, accepted: bool)
    requires Orderly(s)
    ensures Orderly(MarketOrdered(s, id, x, quantity, accepted))
  {
    EnsuredIsOrderly(s, x);
    SubmittedIsOrderly(if x.securityType.OptionContract? then Ensured(s, x) else s, id, x, quantity, accepted);
  }

  lemma SubmittedIsOrderly(s: State, id: nat, x: Symbol, quantity: real, accepted: bool)
    requires Orderly(s)
    ensures Orderly(Submitted(s, id, x, true, quantity, accepted))
  {
  }

  lemma LiquidatedIsOrderly(s: State, id: nat, x: Symbol, accepted: bool)
    requires Orderly(s)
    ensures Orderly(Liquidated(s, id, x, accepted))
  {
    var closing := -s.PositionOf(x).quantity - Sum(s.orders, MarketRemaining(x));
    var c := CancelRequested(s, x, true);
    SameTables(s, c);
    OrderedIsOrderly(c, id, x, closing, accepted);
  }

  lemma DetachedIsOrderly(s: State, x: Symbol)
    requires Orderly(s)
    ensures Orderly(Detached(s, x))
  {
  }

  lemma RemovedIsOrderly(s: State, id: nat, x: Symbol, accepted: bool)
    requires Orderly(s)
    ensures Orderly(Removed(s, id, x, accepted))
  {
    var c := if s.warmingUp then s else CancelRequested(s, x, false);
    SameTables(s, c);
    LiquidatedIsOrderly(c, id, x, accepted);
    DetachedIsOrderly(Liquidated(c, id, x, accepted), x);
  }

  lemma PurgedIsOrderly(s: State, gone: set<Symbol>)
    requires Orderly(s)
    ensures Orderly(Purged(s, gone))
  {
  }

  lemma StepIsOrderly(s: State, a: Action)
    requires Orderly(s)
    ensures Orderly(Step(s, a))
  {
    match a
    case Add(x) => EnsuredIsOrderly(s, x);
    case AddContract(x) => EnsuredIsOrderly(s, x);
    case Remove(x, id, accepted) => RemovedIsOrderly(s, id, x, accepted);
    case Reselect(x) => CancelledIsOrderly(s, x);
    case OrderMarket(x, id, quantity, accepted) => OrderedIsOrderly(s, id, x, quantity, accepted);
    case Flatten(x, id, accepted) => LiquidatedIsOrderly(s, id, x, accepted);
    case ProcessUniverse => PurgedIsOrderly(s, Removable(s, EligibleUniverse(s)));
    case ProcessDirect => PurgedIsOrderly(s, Removable(s, EligibleDirect(s)));
    case Drain => PurgedIsOrderly(s, Removable(s, s.pending));
    case _ => OtherStepIsOrderly(s, a);
  }

  lemma OtherStepIsOrderly(s: State, a: Action)
    requires Orderly(s) && Quiet(a)
    requires !a.Reselect?
    ensures Orderly(Step(s, a))
  {
  }

  lemma {:induction false} RunIsOrderly(s: State, actions: seq<Action>)
    requires Orderly(s)
    ensures Orderly(Run(s, actions))
    decreases |actions|
  {
    if actions != [] {
      StepIsOrderly(s, actions[0]);
      RunIsOrderly(Step(s, actions[0]), actions[1..]);
    }
  }

  /** Over every run, whatever orders are placed. */
  lemma EveryRunIsOrderly(actions: seq<Action>)
    ensures Orderly(Run(Initial(), actions))
  {
    RunIsOrderly(Initial(), actions);
  }

  // ---- What a removal announces and a selection withdraws ----

  /** A removal makes a security untradable and announces it; a selection withdraws both, and adds a security that
      is not there. */
  lemma RemovalIsWithdrawn(s: State, id: nat, x: Symbol, accepted: bool)
    requires x in s.securities
    ensures var t := Step(s, Remove(x, id, accepted));
            && x in t.securities && !t.securities[x] && x in t.pending && x in t.changes
    ensures var u := Step(Step(s, Remove(x, id, accepted)), Add(x));
            && x in u.securities && u.securities[x] && x !in u.pending && x !in u.changes
            && x !in u.universeGenerations && x !in u.directGenerations
  {
    RemovedFiles(s, id, x, accepted, x);
  }

  lemma SelectionAdds(s: State, x: Symbol)
    requires x !in s.securities
    ensures var t := Step(s, Add(x));
            && x in t.securities && t.securities[x] && x in t.subscriptions && x !in t.pending && x !in t.changes
  {
  }

  lemma OrderingAnnouncesNone(s: State, id: nat, x: Symbol, quantity: real, accepted: bool, y: Symbol)
    requires y != x
    ensures y in MarketOrdered(s, id, x, quantity, accepted).changes <==> y in s.changes
  {
  }

  lemma LiquidatingAnnouncesNone(s: State, id: nat, x: Symbol, accepted: bool, y: Symbol)
    requires y != x
    ensures y in Liquidated(s, id, x, accepted).changes <==> y in s.changes
  {
    var closing := -s.PositionOf(x).quantity - Sum(s.orders, MarketRemaining(x));
    OrderingAnnouncesNone(CancelRequested(s, x, true), id, x, closing, accepted, y);
  }

  /** Neither a removal nor a selection announces or withdraws another security. */
  lemma OthersStayAnnounced(s: State, id: nat, x: Symbol, accepted: bool, y: Symbol)
    requires y != x
    ensures y in Removed(s, id, x, accepted).changes <==> y in s.changes
    ensures y in Ensured(s, x).changes <==> y in s.changes
  {
    var c := if s.warmingUp then s else CancelRequested(s, x, false);
    LiquidatingAnnouncesNone(c, id, x, accepted, y);
  }
}
