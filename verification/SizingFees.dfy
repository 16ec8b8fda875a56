/** The fee loop: size an order for a target, charge its fee, and size again if it no longer fits. */
module SizingFees {
  import opened Reals
  import opened BuyingPower
  import opened Holdings
  import opened Sizing
  import opened FeeLoops

  datatype SizingResult = Sized(quantity: real, isError: bool)

  /** `above_minimum_order_margin_portfolio_percentage`. */
  predicate AboveMinimum(value: real, minimumPercent: real, orderMargin: real, marginRemaining: real) {
    minimumPercent == 0.0 || !(value * minimumPercent > orderMargin && marginRemaining > 0.0)
  }

  lemma LotsOrder(a: int, b: int, lot: real)
    requires lot > 0.0
    ensures a < b <==> Lots(a, lot) < Lots(b, lot)
  {
  }

  /** From a whole number of lots, sizing reaches a whole number of lots on the target's side of zero. */
  lemma AlignedHolding(held: real, target: real, unit: real, lot: real) returns (k: int, n: int)
    requires unit > 0.0 && lot > 0.0 && LotMultiple(held, lot)
    ensures FirstHolding(held, target, unit, lot) == Lots(k, lot)
    ensures FirstHolding(held, target, unit, lot) - held == Lots(n, lot)
    ensures if target > 0.0 then k >= 0 else if target < 0.0 then k <= 0 else k == 0
  {
    var h :| held == Lots(h, lot);
    n := RoundedIsLots(-held + Exact(target, unit), lot, target < 0.0);
    k := h + n;
    LotsAdd(h, n, lot);
    FirstHoldingIsNear(held, target, unit, lot);
    ExactMargin(target, unit);
    LotsAdd(1, 0, lot);
    LotsAdd(k, 0, lot);
    LotsOrder(-1, k, lot);
    LotsOrder(k, 1, lot);
    LotsOrder(k, 0, lot);
    LotsOrder(0, k, lot);
  }

  /** Margin stays within the target, and one more lot would not. */
  lemma AlignedMargin(held: real, target: real, unit: real, lot: real)
    requires unit > 0.0 && lot > 0.0 && LotMultiple(held, lot)
    ensures var first := FirstHolding(held, target, unit, lot);
            0.0 <= MarginOf(unit, first) <= Abs(target) < MarginOf(unit, Abs(first) + lot)
    ensures !Beyond(MarginOf(unit, FirstHolding(held, target, unit, lot)), target)
  {
    var first := FirstHolding(held, target, unit, lot);
    var k, n := AlignedHolding(held, target, unit, lot);
    LotsOrder(0, k, lot);
    LotsOrder(k, 0, lot);
    LotsAdd(0, 0, lot);
    FirstHoldingIsNear(held, target, unit, lot);
    ExactMargin(target, unit);
    MarginWithin(unit, first, Exact(target, unit));
    MarginGrows(unit, Exact(target, unit), Abs(first) + lot);
  }

  /** The bound holds of what is returned: a lot multiple, margined as reported, within the target. */
  lemma AlignedAmount(held: real, target: real, unit: real, lot: real)
    requires unit > 0.0 && lot > 0.0 && LotMultiple(held, lot)
    ensures var (order, margin) := Amount(held, target, unit, lot);
            && LotMultiple(order, lot)
            && margin == MarginOf(unit, order + held) <= Abs(target)
            && (target > 0.0 ==> order + held >= 0.0) && (target < 0.0 ==> order + held <= 0.0)
  {
    AlignedMargin(held, target, unit, lot);
    var k, n := AlignedHolding(held, target, unit, lot);
    LotsAdd(0, 0, lot);
    LotsOrder(k, 0, lot);
    LotsOrder(0, k, lot);
  }

  /** Where a unit needs no margin, the order closes the holding and needs none. */
  lemma FreeUnitsCloseOut(held: real, target: real, lot: real)
    requires lot > 0.0 && LotMultiple(held, lot)
    ensures Amount(held, target, 0.0, lot) == (-held, 0.0)
  {
    var k :| held == Lots(k, lot);
    WholeLots(-k, lot);
    assert -held == Lots(-k, lot);
    assert FirstHolding(held, target, 0.0, lot) == 0.0;
  }

  /** Whole lots are not rounded. */
  lemma WholeLots(k: int, lot: real)
    requires lot > 0.0
    ensures RoundBy(Lots(k, lot), lot, true) == Lots(k, lot) == RoundBy(Lots(k, lot), lot, false)
  {
    assert Lots(k, lot) / lot == k as real;
  }

  /** No lot multiple on the target's side fits it better. */
  lemma AlignedAmountIsLargest(held: real, target: real, unit: real, lot: real, other: real)
    requires unit > 0.0 && lot > 0.0 && LotMultiple(held, lot) && LotMultiple(other, lot)
    requires MarginOf(unit, other) <= Abs(target)
    ensures Abs(other) <= Abs(Amount(held, target, unit, lot).0 + held)
  {
    var first := FirstHolding(held, target, unit, lot);
    AlignedMargin(held, target, unit, lot);
    var k, n := AlignedHolding(held, target, unit, lot);
    var j :| other == Lots(j, lot);
    var a, b := if j < 0 then -j else j, if k < 0 then -k else k;
    AbsLots(j, lot);
    AbsLots(k, lot);
    if a > b {
      LotsAdd(b, 1, lot);
      LotsOrder(a, b + 1, lot);
      MarginWithin(unit, Abs(first) + lot, other);
    } else {
      LotsOrder(b, a, lot);
    }
  }

  lemma AbsLots(k: int, lot: real)
    requires lot > 0.0
    ensures Abs(Lots(k, lot)) == Lots(if k < 0 then -k else k, lot)
  {
  }

  // ---- Termination measure: whole lots the target has room for ----

  function Room(target: real, step: real): nat
    requires step > 0.0
  {
    NoLess(0, (Abs(target) / step).Floor)
  }

  lemma RoomBounds(target: real, step: real, n: int)
    requires step > 0.0 && n >= 0
    ensures Lots(n, step) <= Abs(target) ==> n <= Room(target, step)
    ensures Abs(target) < Lots(n, step) ==> Room(target, step) < n || n == 0
  {
    var q := Abs(target) / step;
    QuotientTimes(Abs(target), step);
    if q < n as real {
      LotsAbove(Abs(target), q, n, step);
    } else {
      LotsBelow(Abs(target), q, n, step);
    }
  }

  lemma MarginInSteps(unit: real, lot: real, k: int)
    requires unit > 0.0 && lot > 0.0
    ensures lot * unit > 0.0
    ensures MarginOf(unit, Lots(k, lot)) == Lots(if k < 0 then -k else k, lot * unit)
  {
  }

  /** A target below the margin of the order just sized has strictly less room. */
  lemma RoomShrinks(held: real, target: real, unit: real, lot: real, next: real)
    requires unit > 0.0 && lot > 0.0 && LotMultiple(held, lot)
    requires Abs(next) < Amount(held, target, unit, lot).1
    ensures Room(next, StepOf(unit, lot)) < Room(target, StepOf(unit, lot))
  {
    AlignedMargin(held, target, unit, lot);
    var k, n := AlignedHolding(held, target, unit, lot);
    MarginInSteps(unit, lot, k);
    var m := if k < 0 then -k else k;
    var step := StepOf(unit, lot);
    RoomBounds(target, step, m);
    RoomBounds(next, step, m);
    LotsAdd(0, 0, step);
  }

  // ---- maximum_order_quantity_for_target_buying_power ----

  /** The margin target left once a fee has been paid. */
  function TargetAfter(value: real, fee: real, power: real): real { (value - fee) * power }

  /** The fee loop of an order: it starts from the target before fees. */
  function LoopOf(held: real, unit: real, lot: real, value: real, power: real, orderFee: real -> real): Loop {
    Loop(power * value, target => Amount(held, target, unit, lot),
        quantity => TargetAfter(value, orderFee(quantity), power))
  }

  // ---- From a lot-aligned holding the loop ends, within the bound ----

  ghost function RoomOf(unit: real, lot: real): real -> nat
    requires unit > 0.0 && lot > 0.0
  {
    ScaleStrict(0.0, lot, unit);
    target => Room(target, StepOf(unit, lot))
  }

  lemma OneRoundLess(held: real, unit: real, lot: real, target: real, next: real)
    requires unit > 0.0 && lot > 0.0 && LotMultiple(held, lot)
    requires Abs(Amount(held, target, unit, lot).1) > Abs(next)
    ensures RoomOf(unit, lot)(next) < RoomOf(unit, lot)(target)
  {
    AlignedMargin(held, target, unit, lot);
    RoomShrinks(held, target, unit, lot, next);
  }

  lemma AlignedLoopEnds(held: real, unit: real, lot: real, value: real, power: real, orderFee: real -> real)
    requires unit > 0.0 && lot > 0.0 && LotMultiple(held, lot)
    ensures LoopOf(held, unit, lot, value, power, orderFee).Ends()
  {
    var loop, room := LoopOf(held, unit, lot, value, power, orderFee), RoomOf(unit, lot);
    forall target, last | loop.GoesOn(target, last) ensures room(loop.after(loop.size(target).0)) < room(target) {
      OneRoundLess(held, unit, lot, target, loop.after(loop.size(target).0));
    }
    loop.Descends(room, 0);
  }

  /** A lot multiple whose holding fits the target that is left after its own fee. */
  ghost predicate FitsAfterFee(held: real, unit: real, lot: real, value: real, power: real, orderFee: real -> real,
                               quantity: real) {
    && LotMultiple(quantity, lot)
    && (quantity != 0.0 ==> MarginOf(unit, quantity + held) <= Abs(TargetAfter(value, orderFee(quantity), power)))
  }

  lemma AlignedStop(held: real, unit: real, lot: real, value: real, power: real, orderFee: real -> real, quantity: real)
    requires unit > 0.0 && lot > 0.0 && LotMultiple(held, lot)
    requires LoopOf(held, unit, lot, value, power, orderFee).StopsWith(quantity)
    ensures FitsAfterFee(held, unit, lot, value, power, orderFee, quantity)
  {
    var loop := LoopOf(held, unit, lot, value, power, orderFee);
    var target := loop.StopFits(quantity);
    AlignedAmount(held, target, unit, lot);
    MarginWithin(unit, quantity + held, quantity + held);
  }

  /** What the loop promises of an order from a lot-aligned holding. */
  ghost predicate KeepsBound(held: real, unit: real, lot: real, value: real, power: real, orderFee: real -> real,
                             quantity: real) {
    unit > 0.0 && lot > 0.0 && LotMultiple(held, lot)
    ==> FitsAfterFee(held, unit, lot, value, power, orderFee, quantity)
  }

  lemma StopKeepsBound(held: real, unit: real, lot: real, value: real, power: real, orderFee: real -> real,
                       quantity: real)
    requires LoopOf(held, unit, lot, value, power, orderFee).StopsWith(quantity)
    ensures KeepsBound(held, unit, lot, value, power, orderFee, quantity)
  {
    if unit > 0.0 && lot > 0.0 && LotMultiple(held, lot) {
      AlignedStop(held, unit, lot, value, power, orderFee, quantity);
    }
  }

  /** The two steps of a round, as the source takes them. */
  ghost predicate IsLoopOf(loop: Loop, h: Holding, unit: real, lot: real, value: real, power: real,
                           orderFee: real -> real) {
    && (forall t {:trigger Amount(h.quantity, t, unit, lot)} :: loop.size(t) == Amount(h.quantity, t, unit, lot))
    && (forall q {:trigger orderFee(q)} :: loop.after(q) == TargetAfter(value, orderFee(q), power))
  }

  lemma LoopOfIsOne(h: Holding, unit: real, lot: real, value: real, power: real, orderFee: real -> real)
    ensures var loop := LoopOf(h.quantity, unit, lot, value, power, orderFee);
            IsLoopOf(loop, h, unit, lot, value, power, orderFee) && loop.start == power * value
  {
  }

  method SizeRound(model: BuyingPowerModel, h: Holding, leverage: Leverage, lot: real, value: real, power: real,
                   unit: real, orderFee: real -> real, target: real, ghost loop: Loop)
    returns (quantity: real, margin: real, next: real)
    requires unit == UnitMargin(model, h.lastPrice, h.multiplier, leverage)
    requires IsLoopOf(loop, h, unit, lot, value, power, orderFee)
    ensures (quantity, margin) == loop.size(target) && next == loop.after(quantity)
  {
    quantity, margin := AmountToOrder(model, h, leverage, lot, target, unit);
    next := TargetAfter(value, orderFee(quantity), power);
  }

  method RunLoop(model: BuyingPowerModel, h: Holding, leverage: Leverage, lot: real, value: real, power: real,
                 unit: real, orderFee: real -> real, start: real, ghost loop: Loop)
    returns (quantity: real)
    requires unit == UnitMargin(model, h.lastPrice, h.multiplier, leverage)
    requires IsLoopOf(loop, h, unit, lot, value, power, orderFee) && loop.start == start && loop.Ends()
    ensures loop.StopsWith(quantity)
  {
    var target, last := start, 0.0;
    ghost var n: nat := 0;
    ghost var end: nat :| !loop.StillRunning(end);
    while true
      invariant n <= end && (target, last) == loop.Round(n)
      invariant forall i: nat :: i < n ==> loop.StillRunning(i)
      decreases end - n
    {
      var margin, next;
      quantity, margin, next := SizeRound(model, h, leverage, lot, value, power, unit, orderFee, target, loop);
      if quantity == 0.0 { break; }
      target := next;
      if last == quantity { break; }
      last := quantity;
      if Abs(margin) <= Abs(target) { break; }
      n := n + 1;
    }
    assert loop.StopsAt(n, quantity);
  }

  /** The fee loop. It may be entered whenever it ends, which from a lot-aligned holding is always. */
  method FeeLoop(model: BuyingPowerModel, h: Holding, leverage: Leverage, lot: real, value: real, power: real,
                 unit: real, orderFee: real -> real) returns (quantity: real)
    requires unit == UnitMargin(model, h.lastPrice, h.multiplier, leverage)
    requires LoopOf(h.quantity, unit, lot, value, power, orderFee).Ends()
    ensures LoopOf(h.quantity, unit, lot, value, power, orderFee).StopsWith(quantity)
    ensures KeepsBound(h.quantity, unit, lot, value, power, orderFee, quantity)
  {
    ghost var loop := LoopOf(h.quantity, unit, lot, value, power, orderFee);
    LoopOfIsOne(h, unit, lot, value, power, orderFee);
    var start := power * value;
    quantity := RunLoop(model, h, leverage, lot, value, power, unit, orderFee, start, loop);
    StopKeepsBound(h.quantity, unit, lot, value, power, orderFee, quantity);
  }

  ghost function StepOf(unit: real, lot: real): (step: real)
    requires unit > 0.0 && lot > 0.0
    ensures step > 0.0 && step == lot * unit
  {
    ScaleStrict(0.0, lot, unit);
    lot * unit
  }

  /** The change of margin is less than the share of the portfolio worth ordering for, and there is margin left to
      wait with. */
  predicate TooSmall(value: real, power: real, used: real, minimumPercent: real, marginRemaining: real) {
    minimumPercent != 0.0 && Abs(power * value - used) < value * minimumPercent && marginRemaining > 0.0
  }

  /** An order is sized at all: the target is not zero, there is a price, and the change is not too small. */
  predicate IsSized(model: BuyingPowerModel, h: Holding, leverage: Leverage, value: real, power: real,
                    minimumPercent: real, marginRemaining: real) {
    && power * value != 0.0
    && UnitMargin(model, h.lastPrice, h.multiplier, leverage) != 0.0
    && AboveMinimum(value, minimumPercent,
         Abs(power * value - InitialMargin(model, h.quantity, h.lastPrice, h.multiplier, leverage)), marginRemaining)
  }

  lemma UnitIsFreeIff(model: BuyingPowerModel, price: real, multiplier: real, leverage: Leverage)
    ensures UnitMargin(model, price, multiplier, leverage) == 0.0 <==> price == 0.0 || multiplier == 0.0
  {
    MarginCoversNotional(model, 1.0, price, multiplier, leverage);
  }

  lemma TooSmallIff(value: real, power: real, used: real, minimumPercent: real, marginRemaining: real)
    ensures TooSmall(value, power, used, minimumPercent, marginRemaining)
            <==> !AboveMinimum(value, minimumPercent, Abs(power * value - used), marginRemaining)
  {
  }

  /** Sizing reaches the fee loop exactly where there is a target, a price, and a change worth ordering for. */
  lemma SizedIff(model: BuyingPowerModel, h: Holding, leverage: Leverage, value: real, power: real,
                 minimumPercent: real, marginRemaining: real)
    ensures IsSized(model, h, leverage, value, power, minimumPercent, marginRemaining)
            <==>
            && power * value != 0.0 && h.lastPrice != 0.0 && h.multiplier != 0.0
            && !TooSmall(value, power, InitialMargin(model, h.quantity, h.lastPrice, h.multiplier, leverage),
                         minimumPercent, marginRemaining)
  {
    UnitIsFreeIff(model, h.lastPrice, h.multiplier, leverage);
    TooSmallIff(value, power, InitialMargin(model, h.quantity, h.lastPrice, h.multiplier, leverage), minimumPercent,
                marginRemaining);
  }

  /** `maximum_order_quantity_for_target_buying_power`. */
  method MaximumOrderQuantity(model: BuyingPowerModel, h: Holding, leverage: Leverage, lot: real, value: real,
                              power: real, minimumPercent: real, marginRemaining: real, orderFee: real -> real)
    returns (r: SizingResult)
    requires var unit := UnitMargin(model, h.lastPrice, h.multiplier, leverage);
             IsSized(model, h, leverage, value, power, minimumPercent, marginRemaining)
             ==> LoopOf(h.quantity, unit, lot, value, power, orderFee).Ends()
    ensures var unit := UnitMargin(model, h.lastPrice, h.multiplier, leverage);
            if IsSized(model, h, leverage, value, power, minimumPercent, marginRemaining) then
              && !r.isError && LoopOf(h.quantity, unit, lot, value, power, orderFee).StopsWith(r.quantity)
              && KeepsBound(h.quantity, unit, lot, value, power, orderFee, r.quantity)
            else
              r == Sized(if power * value == 0.0 then -h.quantity else 0.0, power * value != 0.0 && unit == 0.0)
  {
    var target := power * value;
    if target == 0.0 { return Sized(-h.quantity, false); }
    var current := InitialMargin(model, h.quantity, h.lastPrice, h.multiplier, leverage);
    var unit := InitialMargin(model, 1.0, h.lastPrice, h.multiplier, leverage);
    if unit == 0.0 { return Sized(0.0, true); }
    if !AboveMinimum(value, minimumPercent, Abs(target - current), marginRemaining) { return Sized(0.0, false); }
    var quantity := FeeLoop(model, h, leverage, lot, value, power, unit, orderFee);
    r := Sized(quantity, false);
  }
}
