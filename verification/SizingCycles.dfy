/** When the fee loop of order sizing ends: from the lot-aligned holdings, and from no others. */
module SizingCycles {
  import opened Reals
  import opened Holdings
  import opened Sizing
  import opened FeeLoops
  import opened SizingFees

  /** A fee of `f` on one order, and none on any other. */
  function FeeOn(order: real, f: real): real -> real { (q: real) => if q == order then f else 0.0 }

  /** With one unit of value and power `p`, a fee of `f` turns the target from `p` to `b`, and no fee turns it back. */
  ghost predicate Alternates(held: real, unit: real, lot: real, p: real, f: real, b: real) {
    var first, second := Amount(held, p, unit, lot), Amount(held, b, unit, lot);
    && f >= 0.0 && b == TargetAfter(1.0, f, p)
    && first.0 != 0.0 && second.0 != 0.0 && first.0 != second.0
    && Abs(first.1) > Abs(b) && Abs(second.1) > Abs(p)
  }

  lemma AlternationRuns(held: real, unit: real, lot: real, p: real, f: real, b: real, n: nat)
    requires Alternates(held, unit, lot, p, f, b)
    ensures LoopOf(held, unit, lot, 1.0, p, FeeOn(Amount(held, p, unit, lot).0, f)).StillRunning(n)
  {
    var loop := LoopOf(held, unit, lot, 1.0, p, FeeOn(Amount(held, p, unit, lot).0, f));
    assert loop.after(loop.size(b).0) == TargetAfter(1.0, 0.0, p) == p;
    loop.Alternates(p, b, n);
  }

  // ---- An unaligned holding has such a pair ----

  /** Rounding is determined by the lot it falls in. */
  lemma RoundsTo(quantity: real, lot: real, towardPositive: bool, j: int)
    requires lot > 0.0
    requires if towardPositive then Lots(j, lot) - lot < quantity <= Lots(j, lot)
             else Lots(j, lot) <= quantity < Lots(j, lot) + lot
    ensures RoundBy(quantity, lot, towardPositive) == Lots(j, lot)
  {
    var k := RoundedIsLots(quantity, lot, towardPositive);
    LotsAdd(j, 1, lot);
    LotsAdd(j, -1, lot);
    LotsAdd(-1, 0, lot);
    LotsOrder(k, j + 1, lot);
    LotsOrder(j - 1, k, lot);
  }

  /** `held` stands `r` above lot `k`, and neither on it nor on the next. */
  ghost predicate Stands(held: real, lot: real, k: int, r: real) {
    0.0 < r < lot && held == Lots(k, lot) + r
  }

  lemma UnalignedStands(held: real, lot: real) returns (k: int, r: real)
    requires lot > 0.0 && !LotMultiple(held, lot)
    ensures Stands(held, lot, k, r)
  {
    k := (held / lot).Floor;
    r := held - Lots(k, lot);
    FloorIsLots(held, lot);
    assert held != Lots(k, lot);
  }

  /** The margin of a small holding, as a target, is sized for by that holding before rounding. */
  lemma ExactOfMargin(unit: real, d: real)
    requires unit > 0.0 && d > 0.0
    ensures var t := MarginOf(unit, d); t > 0.0 && Exact(t, unit) == d && Exact(-t, unit) == -d
  {
    var t := MarginOf(unit, d);
    ScaleStrict(0.0, d, unit);
    QuotientTimes(t, unit);
    SameQuotient(Exact(t, unit), d, unit);
    QuotientTimes(-t, unit);
    SameQuotient(Exact(-t, unit), -d, unit);
  }

  lemma AmountIs(held: real, unit: real, lot: real, target: real, exact: real, j: int, first: real)
    requires Exact(target, unit) == exact
    requires RoundBy(-held + exact, lot, target < 0.0) == Lots(j, lot) && first == held + Lots(j, lot)
    ensures var margin := MarginOf(unit, first);
            Amount(held, target, unit, lot)
            == (if Beyond(margin, target) then first + Move(target, lot) - held else first - held, margin)
  {
  }

  /** A small positive target: two lots below the one above, the rounded holding being short and too large. */
  lemma SizedAbove(held: real, unit: real, lot: real, k: int, r: real, d: real)
    requires unit > 0.0 && lot > 0.0 && Stands(held, lot, k, r) && 0.0 < d < r && d < lot - r
    ensures Amount(held, MarginOf(unit, d), unit, lot) == (-Lots(k + 2, lot), MarginOf(unit, r - lot))
  {
    ExactOfMargin(unit, d);
    LotsAdd(k, 1, lot);
    LotsAdd(k + 1, 1, lot);
    RoundsTo(-held + d, lot, false, -(k + 1));
    AmountIs(held, unit, lot, MarginOf(unit, d), d, -(k + 1), r - lot);
    MarginGrows(unit, d, r - lot);
  }

  /** A small negative target: the lot below. */
  lemma SizedBelow(held: real, unit: real, lot: real, k: int, r: real, d: real)
    requires unit > 0.0 && lot > 0.0 && Stands(held, lot, k, r) && 0.0 < d < r && d < lot - r
    ensures Amount(held, -MarginOf(unit, d), unit, lot) == (-Lots(k, lot), MarginOf(unit, r))
  {
    ExactOfMargin(unit, d);
    LotsAdd(k, 0, lot);
    RoundsTo(-held - d, lot, true, -k);
    AmountIs(held, unit, lot, -MarginOf(unit, d), -d, -k, r);
    MarginWithin(unit, r, r);
  }

  /** A zero target: the lot above. */
  lemma SizedFlat(held: real, unit: real, lot: real, k: int, r: real)
    requires unit > 0.0 && lot > 0.0 && Stands(held, lot, k, r)
    ensures Amount(held, 0.0, unit, lot) == (-Lots(k + 1, lot), MarginOf(unit, r - lot))
  {
    ExactMargin(0.0, unit);
    LotsAdd(k, 1, lot);
    RoundsTo(-held, lot, false, -(k + 1));
    AmountIs(held, unit, lot, 0.0, 0.0, -(k + 1), r - lot);
  }

  lemma DistinctOrders(k: int, lot: real)
    requires lot > 0.0
    ensures -Lots(k, lot) != -Lots(k + 1, lot) && -Lots(k + 1, lot) != -Lots(k + 2, lot)
            && -Lots(k, lot) != -Lots(k + 2, lot)
    ensures (-Lots(k, lot) == 0.0 <==> k == 0) && (-Lots(k + 1, lot) == 0.0 <==> k == -1)
            && (-Lots(k + 2, lot) == 0.0 <==> k == -2)
  {
    LotsOrder(k, k + 1, lot);
    LotsOrder(k + 1, k + 2, lot);
    LotsOrder(k, 0, lot);
    LotsOrder(0, k, lot);
    LotsOrder(k + 1, 0, lot);
    LotsOrder(0, k + 1, lot);
    LotsOrder(k + 2, 0, lot);
    LotsOrder(0, k + 2, lot);
    LotsAdd(0, 0, lot);
  }

  /** At most one of the three orders is zero, so two of the targets alternate. */
  lemma UnalignedAlternates(held: real, unit: real, lot: real) returns (p: real, f: real, b: real)
    requires unit > 0.0 && lot > 0.0 && !LotMultiple(held, lot)
    ensures Alternates(held, unit, lot, p, f, b)
  {
    var k, r := UnalignedStands(held, lot);
    var d := (if r < lot - r then r else lot - r) / 2.0;
    var up := MarginOf(unit, d);
    SizedAbove(held, unit, lot, k, r, d);
    SizedBelow(held, unit, lot, k, r, d);
    SizedFlat(held, unit, lot, k, r);
    DistinctOrders(k, lot);
    ExactOfMargin(unit, d);
    MarginGrows(unit, d, r);
    MarginGrows(unit, d, r - lot);
    AfterFees(up);
    if k == 0 {
      p, f, b := up, 1.0, 0.0;
    } else if k == -2 {
      AfterFees(-up);
      p, f, b := -up, 1.0, 0.0;
    } else {
      p, f, b := up, 2.0, -up;
    }
  }

  lemma AfterFees(p: real)
    ensures TargetAfter(1.0, 1.0, p) == 0.0 && TargetAfter(1.0, 2.0, p) == -p
  {
  }

  // ---- Without lots ----

  /** Away from the holding, so that the order is never zero. */
  function Away(held: real): real { if held > 0.0 then -1.0 else 1.0 }

  /** A target as seen that way. */
  function Seen(held: real, target: real): real { if held > 0.0 then -target else target }

  function TargetOf(unit: real, holding: real): real { holding * unit }

  /** The fee that leaves half the target `q` was sized for. */
  function HalvingFee(held: real, unit: real, q: real): (fee: real)
    ensures fee >= 0.0
  {
    Max(1.0 - Seen(held, TargetOf(unit, q + held)) / 2.0, 0.0)
  }

  function Halving(held: real, unit: real): real -> real { (q: real) => HalvingFee(held, unit, q) }

  lemma SizedExactly(held: real, unit: real, lot: real, target: real)
    requires unit > 0.0 && lot <= 0.0
    ensures Amount(held, target, unit, lot) == (Exact(target, unit) - held, Abs(target))
    ensures TargetOf(unit, Exact(target, unit)) == target
  {
    FirstHoldingIsNear(held, target, unit, lot);
    ExactMargin(target, unit);
    QuotientTimes(target, unit);
  }

  /** The fee of the order sized for a target, when that target is at most one on the side away from the holding. */
  lemma HalvesTarget(held: real, unit: real, lot: real, target: real)
    requires unit > 0.0 && lot <= 0.0 && 0.0 < Seen(held, target) <= 1.0
    ensures TargetAfter(1.0, Halving(held, unit)(Amount(held, target, unit, lot).0), Away(held)) == target / 2.0
  {
    SizedExactly(held, unit, lot, target);
    var quantity := Amount(held, target, unit, lot).0;
    assert quantity + held == Exact(target, unit);
    assert HalvingFee(held, unit, quantity) == 1.0 - Seen(held, target) / 2.0;
    TowardsAway(held, target);
  }

  lemma TowardsAway(held: real, target: real)
    ensures TargetAfter(1.0, 1.0 - Seen(held, target) / 2.0, Away(held)) == target / 2.0
  {
  }

  lemma HalvingGoesOn(held: real, unit: real, lot: real, target: real, last: real)
    requires unit > 0.0 && lot <= 0.0 && 0.0 < Seen(held, target) <= 1.0
    requires last == 0.0 || last == Exact(target + target, unit) - held
    ensures LoopOf(held, unit, lot, 1.0, Away(held), Halving(held, unit)).GoesOn(target, last)
  {
    SizedExactly(held, unit, lot, target);
    SizedExactly(held, unit, lot, target + target);
    ExactMargin(target, unit);
    HalvesTarget(held, unit, lot, target);
  }

  /** The target is on that side, and the last order, if any, was sized for twice the target. */
  predicate Halved(held: real, unit: real, target: real, last: real) {
    0.0 < Seen(held, target) <= 1.0 && (last == 0.0 || last == Exact(target + target, unit) - held)
  }

  lemma HalvingStep(held: real, unit: real, lot: real, target: real)
    requires unit > 0.0 && lot <= 0.0 && 0.0 < Seen(held, target) <= 1.0
    ensures var loop := LoopOf(held, unit, lot, 1.0, Away(held), Halving(held, unit));
            Halved(held, unit, loop.after(loop.size(target).0), loop.size(target).0)
  {
    HalvesTarget(held, unit, lot, target);
    SizedExactly(held, unit, lot, target);
  }

  lemma HalvingRuns(held: real, unit: real, lot: real, n: nat)
    requires unit > 0.0 && lot <= 0.0
    ensures LoopOf(held, unit, lot, 1.0, Away(held), Halving(held, unit)).StillRunning(n)
  {
    var loop := LoopOf(held, unit, lot, 1.0, Away(held), Halving(held, unit));
    var inv := (target: real, last: real) => Halved(held, unit, target, last);
    forall target, last ensures loop.Keeps(inv, target, last) {
      if inv(target, last) {
        HalvingGoesOn(held, unit, lot, target, last);
        HalvingStep(held, unit, lot, target);
      }
    }
    loop.PassesOn(inv, n);
  }

  // ---- Exactly the lot-aligned holdings ----

  ghost predicate NonNegative(orderFee: real -> real) { forall q :: orderFee(q) >= 0.0 }

  lemma FeeOnIsNonNegative(order: real, f: real)
    requires f >= 0.0
    ensures NonNegative(FeeOn(order, f))
  {
  }

  lemma HalvingIsNonNegative(held: real, unit: real)
    ensures NonNegative(Halving(held, unit))
  {
  }

  /** From any other holding some portfolio value, power and non-negative fee keep the loop running for ever. */
  lemma UnalignedRunsForEver(held: real, unit: real, lot: real)
    returns (value: real, power: real, orderFee: real -> real)
    requires unit > 0.0 && !(lot > 0.0 && LotMultiple(held, lot))
    ensures value > 0.0 && NonNegative(orderFee)
    ensures forall n: nat :: LoopOf(held, unit, lot, value, power, orderFee).StillRunning(n)
  {
    value := 1.0;
    if lot > 0.0 {
      var f, b;
      power, f, b := UnalignedAlternates(held, unit, lot);
      orderFee := FeeOn(Amount(held, power, unit, lot).0, f);
      FeeOnIsNonNegative(Amount(held, power, unit, lot).0, f);
      forall n: nat ensures LoopOf(held, unit, lot, value, power, orderFee).StillRunning(n) {
        AlternationRuns(held, unit, lot, power, f, b, n);
      }
    } else {
      power := Away(held);
      orderFee := Halving(held, unit);
      HalvingIsNonNegative(held, unit);
      forall n: nat ensures LoopOf(held, unit, lot, value, power, orderFee).StillRunning(n) {
        HalvingRuns(held, unit, lot, n);
      }
    }
  }

  /** The loop ends for every portfolio value, power and non-negative fee if and only if the lot is positive
      and the holding a multiple of it. */
  lemma LoopEndsIff(held: real, unit: real, lot: real)
    requires unit > 0.0
    ensures (forall value, power, orderFee: real -> real :: value > 0.0 && NonNegative(orderFee) ==>
               LoopOf(held, unit, lot, value, power, orderFee).Ends())
            <==> lot > 0.0 && LotMultiple(held, lot)
  {
    if lot > 0.0 && LotMultiple(held, lot) {
      forall value, power, orderFee: real -> real | value > 0.0 && NonNegative(orderFee)
        ensures LoopOf(held, unit, lot, value, power, orderFee).Ends()
      {
        AlignedLoopEnds(held, unit, lot, value, power, orderFee);
      }
    } else {
      var value, power, orderFee := UnalignedRunsForEver(held, unit, lot);
      assert !LoopOf(held, unit, lot, value, power, orderFee).Ends();
    }
  }

  // ---- An ordinary case ----

  /** Short 2.7 units in lots of one, with a fee of one per unit traded: the loop alternates between
      ordering three units and one unit for ever. */
  lemma {:induction false} UnalignedHoldingCycles(n: nat)
    ensures var loop := LoopOf(-2.7, 1.0, 1.0, 5.0, 0.1, (q: real) => Abs(q));
            && loop.StillRunning(n)
            && loop.Round(n) == (if n == 0 then (0.5, 0.0) else if n % 2 == 1 then (0.2, 3.0) else (0.4, 1.0))
  {
    var loop := LoopOf(-2.7, 1.0, 1.0, 5.0, 0.1, (q: real) => Abs(q));
    if n > 0 {
      UnalignedHoldingCycles(n - 1);
    }
    CycleOrders();
    assert loop.start == 0.5;
    assert loop.after(3.0) == TargetAfter(5.0, 3.0, 0.1) == 0.2;
    assert loop.after(1.0) == TargetAfter(5.0, 1.0, 0.1) == 0.4;
  }

  lemma CycleOrders()
    ensures Amount(-2.7, 0.5, 1.0, 1.0) == (3.0, 0.3)
    ensures Amount(-2.7, 0.4, 1.0, 1.0) == (3.0, 0.3)
    ensures Amount(-2.7, 0.2, 1.0, 1.0) == (1.0, 0.7)
  {
  }
}
