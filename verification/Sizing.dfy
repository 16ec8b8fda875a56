/** Order sizing: rounding to lots, and the fee loop around it. */
module Sizing {
  import opened Reals
  import opened BuyingPower
  import opened Holdings

  function Ceil(x: real): int { -((-x).Floor) }

  /** `discretely_round_by`. */
  function RoundBy(quantity: real, lot: real, towardPositive: bool): real {
    if lot <= 0.0 then quantity
    else (if towardPositive then Ceil(quantity / lot) else (quantity / lot).Floor) as real * lot
  }

  function Lots(k: int, lot: real): real { k as real * lot }

  ghost predicate LotMultiple(x: real, lot: real) {
    exists k :: x == Lots(k, lot)
  }

  lemma LotsBelow(x: real, q: real, k: int, lot: real)
    requires lot > 0.0 && x == q * lot && k as real <= q
    ensures Lots(k, lot) <= x
  {
  }

  lemma LotsAbove(x: real, q: real, k: int, lot: real)
    requires lot > 0.0 && x == q * lot && q < k as real
    ensures x < Lots(k, lot)
  {
  }

  lemma LotsAdd(a: int, b: int, lot: real)
    ensures Lots(a + b, lot) == Lots(a, lot) + Lots(b, lot)
    ensures Lots(1, lot) == lot && Lots(0, lot) == 0.0 && Lots(-a, lot) == -Lots(a, lot)
  {
  }

  lemma FloorIsLots(quantity: real, lot: real)
    requires lot > 0.0
    ensures var k := (quantity / lot).Floor; quantity - lot < Lots(k, lot) <= quantity
  {
    var q := quantity / lot;
    assert quantity == q * lot;
    LotsBelow(quantity, q, q.Floor, lot);
    LotsAbove(quantity, q, q.Floor + 1, lot);
    LotsAdd(q.Floor, 1, lot);
  }

  lemma NegatedQuotient(x: real, lot: real)
    requires lot > 0.0
    ensures (-x) / lot == -(x / lot)
  {
  }

  /** Rounding gives whole lots within one lot of the quantity, on the side asked for. */
  lemma RoundedIsLots(quantity: real, lot: real, towardPositive: bool) returns (k: int)
    requires lot > 0.0
    ensures RoundBy(quantity, lot, towardPositive) == Lots(k, lot)
    ensures if towardPositive then quantity <= Lots(k, lot) < quantity + lot
            else quantity - lot < Lots(k, lot) <= quantity
  {
    if towardPositive {
      NegatedQuotient(quantity, lot);
      FloorIsLots(-quantity, lot);
      k := Ceil(quantity / lot);
      assert Lots(k, lot) == -Lots(-k, lot);
    } else {
      FloorIsLots(quantity, lot);
      k := (quantity / lot).Floor;
    }
  }

  lemma ScaleStrict(a: real, b: real, c: real)
    requires a < b && c > 0.0
    ensures a * c < b * c
  {
  }

  // ---- amount_to_order ----

  function MarginOf(unit: real, quantity: real): real { Abs(quantity) * unit }

  /** The holding that would be margined at exactly the target; flat when a unit needs no margin. */
  function Exact(target: real, unit: real): real { if unit == 0.0 then 0.0 else target / unit }

  /** The holding the rounded order aims at. */
  function FirstHolding(held: real, target: real, unit: real, lot: real): real {
    held + RoundBy(-held + Exact(target, unit), lot, target < 0.0)
  }

  /** The margin lies past the target, seen from zero. */
  predicate Beyond(margin: real, target: real) {
    (target < 0.0 && margin < target) || (target > 0.0 && margin > target)
  }

  /** What the adjustment loop adds to the order each time. */
  function Move(target: real, lot: real): real { if target < 0.0 then lot else -lot }

  /** Order size and reported margin. Where the margin of the rounded holding lies beyond the target, the
      order has already moved one lot further when the loop gives up, and the margin reported is the one
      before that move. */
  function Amount(held: real, target: real, unit: real, lot: real): (r: (real, real)) {
    var first := FirstHolding(held, target, unit, lot);
    var margin := MarginOf(unit, first);
    (if Beyond(margin, target) then first + Move(target, lot) - held else first - held, margin)
  }

  lemma QuotientTimes(t: real, u: real)
    requires u != 0.0
    ensures t / u * u == t
  {
  }

  /** The rounded holding lies within a lot of the exact one, on the near side. */
  lemma FirstHoldingIsNear(held: real, target: real, unit: real, lot: real)
    ensures var first := FirstHolding(held, target, unit, lot);
            var exact := Exact(target, unit);
            if lot <= 0.0 then first == exact
            else if target < 0.0 then exact <= first < exact + lot
            else exact - lot < first <= exact
  {
    if lot > 0.0 {
      var _ := RoundedIsLots(-held + Exact(target, unit), lot, target < 0.0);
    }
  }

  lemma MarginGrows(unit: real, x: real, y: real)
    requires unit > 0.0 && Abs(x) < Abs(y)
    ensures MarginOf(unit, x) < MarginOf(unit, y)
  {
  }

  lemma MarginWithin(unit: real, x: real, y: real)
    requires unit > 0.0 && Abs(x) <= Abs(y)
    ensures 0.0 <= MarginOf(unit, x) <= MarginOf(unit, y)
  {
  }

  lemma ExactMargin(target: real, unit: real)
    requires unit > 0.0
    ensures MarginOf(unit, Exact(target, unit)) == Abs(target)
    ensures target > 0.0 ==> Exact(target, unit) > 0.0
    ensures target < 0.0 ==> Exact(target, unit) < 0.0
    ensures target == 0.0 ==> Exact(target, unit) == 0.0
  {
  }

  lemma MarginFlips(unit: real, x: real)
    ensures MarginOf(-unit, x) == -MarginOf(unit, x) && MarginOf(unit, -x) == MarginOf(unit, x)
  {
  }

  /** With a negative unit margin, targets and margins change sign and nothing else. */
  lemma ExactFlips(target: real, unit: real)
    requires unit != 0.0
    ensures Exact(-target, -unit) == Exact(target, unit)
  {
  }

  /** A rounded holding that comes out beyond the target lies across zero from the way it is moved back. */
  lemma BeyondIsAcross(held: real, target: real, unit: real, lot: real)
    requires Beyond(MarginOf(unit, FirstHolding(held, target, unit, lot)), target)
    ensures lot > 0.0 && unit != 0.0
    ensures var first := FirstHolding(held, target, unit, lot); if target < 0.0 then first > 0.0 else first < 0.0
  {
    var first := FirstHolding(held, target, unit, lot);
    FirstHoldingIsNear(held, target, unit, lot);
    assert unit == 0.0 ==> MarginOf(unit, first) == 0.0;
    if unit > 0.0 {
      PositiveBeyond(target, unit, first);
    } else {
      MarginFlips(unit, first);
      ExactFlips(target, unit);
      PositiveBeyond(-target, -unit, first);
      ExactMargin(-target, -unit);
    }
  }

  lemma PositiveBeyond(target: real, unit: real, first: real)
    requires unit > 0.0 && Beyond(MarginOf(unit, first), target)
    ensures target > 0.0 && Abs(first) > Exact(target, unit) > 0.0
  {
    ExactMargin(target, unit);
    MarginWithin(unit, first, first);
    if Abs(first) <= Abs(Exact(target, unit)) {
      MarginWithin(unit, first, Exact(target, unit));
    }
  }

  // ---- The adjustment loop ----

  /** How many lots a holding stands above zero. */
  function Height(holding: real, lot: real): nat {
    if lot > 0.0 && holding >= 0.0 then NoLess(0, (holding / lot).Floor + 1) else 0
  }

  function NoLess(a: nat, b: int): nat { if b > a then b else a }

  lemma OneLotLower(holding: real, lot: real)
    requires lot > 0.0 && holding >= 0.0
    ensures Height(holding - lot, lot) < Height(holding, lot)
  {
    var q := holding / lot;
    QuotientTimes(holding, lot);
    if q < 0.0 { ScaleStrict(q, 0.0, lot); }
    var p := (holding - lot) / lot;
    QuotientTimes(holding - lot, lot);
    SameQuotient(p, q - 1.0, lot);
  }

  lemma SameQuotient(p: real, q: real, lot: real)
    requires lot > 0.0 && p * lot == q * lot
    ensures p == q
  {
  }

  /** The margin difference grew without changing sign. */
  predicate Worsens(difference: real, before: real) {
    Abs(difference) > Abs(before) && Signum(difference) == Signum(before)
  }

  /** Beyond the target, a move worsens the difference exactly when it makes the holding larger. */
  lemma WorsensIffLarger(unit: real, target: real, x: real, y: real)
    requires Beyond(MarginOf(unit, x), target)
    ensures Worsens(MarginOf(unit, y) - target, MarginOf(unit, x) - target) <==> Abs(y) > Abs(x)
  {
    if unit > 0.0 {
      LargerIsWorse(unit, target, x, y);
    } else {
      assert unit == 0.0 ==> MarginOf(unit, x) == 0.0;
      MarginFlips(unit, x);
      MarginFlips(unit, y);
      LargerIsWorse(-unit, -target, x, y);
    }
  }

  lemma LargerIsWorse(unit: real, target: real, x: real, y: real)
    requires unit > 0.0 && Beyond(MarginOf(unit, x), target)
    ensures Worsens(MarginOf(unit, y) - target, MarginOf(unit, x) - target) <==> Abs(y) > Abs(x)
  {
    PositiveBeyond(target, unit, x);
    if Abs(y) > Abs(x) {
      MarginGrows(unit, x, y);
    } else {
      MarginWithin(unit, y, x);
    }
  }

  /** The holding after `n` moves. */
  function Moved(x: real, move: real, n: nat): real { x + n as real * move }

  lemma MovedOnce(x: real, move: real, n: nat)
    ensures Moved(x, move, n + 1) == Moved(x, move, n) + move && Moved(x, move, 0) == x
  {
  }

  /** Every one of the first `n` moves started beyond the target and did not make the holding larger. */
  ghost predicate Carries(unit: real, target: real, x: real, move: real, n: nat) {
    forall i: nat {:trigger Moved(x, move, i)} :: i < n ==>
      Beyond(MarginOf(unit, Moved(x, move, i)), target) && Abs(Moved(x, move, i) + move) <= Abs(Moved(x, move, i))
  }

  /** Where the adjustment loop leaves a holding `x`: after `n` moves it is no longer beyond the target, or
      the next move makes it larger; that move then stays in the order but not in the margin. */
  ghost predicate Adjusted(unit: real, target: real, lot: real, x: real, n: nat, holding: real, margin: real) {
    var move := Move(target, lot);
    var y := Moved(x, move, n);
    && Carries(unit, target, x, move, n) && margin == MarginOf(unit, y)
    && (if Beyond(margin, target) then Abs(y + move) > Abs(y) && holding == y + move else holding == y)
  }

  ghost predicate Settles(unit: real, target: real, lot: real, x: real, holding: real, margin: real) {
    exists n: nat :: Adjusted(unit, target, lot, x, n, holding, margin)
  }

  /** How many lots the loop has ahead of it before zero. */
  function Ahead(holding: real, target: real, lot: real): nat {
    Height(if target < 0.0 then -holding else holding, lot)
  }

  /** What one round of the loop decides: to stop there, or to carry on one lot further along. */
  lemma OneRound(unit: real, target: real, lot: real, x: real, n: nat, before: real, after: real)
    requires lot > 0.0 && Carries(unit, target, x, Move(target, lot), n) && before == Moved(x, Move(target, lot), n)
    requires Beyond(MarginOf(unit, before), target) && after == before + Move(target, lot)
    ensures if Worsens(MarginOf(unit, after) - target, MarginOf(unit, before) - target)
            then Adjusted(unit, target, lot, x, n, after, MarginOf(unit, before))
            else Carries(unit, target, x, Move(target, lot), n + 1) && Moved(x, Move(target, lot), n + 1) == after
                 && Ahead(after, target, lot) < Ahead(before, target, lot)
  {
    WorsensIffLarger(unit, target, before, after);
    if Abs(after) <= Abs(before) {
      CarryOn(unit, target, lot, x, n, before);
    }
  }

  lemma CarryOn(unit: real, target: real, lot: real, x: real, n: nat, before: real)
    requires lot > 0.0 && Carries(unit, target, x, Move(target, lot), n) && before == Moved(x, Move(target, lot), n)
    requires Beyond(MarginOf(unit, before), target) && Abs(before + Move(target, lot)) <= Abs(before)
    ensures Carries(unit, target, x, Move(target, lot), n + 1)
    ensures Moved(x, Move(target, lot), n + 1) == before + Move(target, lot)
    ensures Ahead(before + Move(target, lot), target, lot) < Ahead(before, target, lot)
  {
    MovedOnce(x, Move(target, lot), n);
    OneLotLower(if target < 0.0 then -before else before, lot);
  }

  /** The adjustment loop of `amount_to_order`. */
  method Adjust(margin: real -> real, unit: real, held: real, lot: real, target: real, start: real)
    returns (orderSize: real, finalMargin: real)
    requires IsMarginOf(margin, unit)
    requires Beyond(margin(start + held), target) ==> lot > 0.0
    ensures Settles(unit, target, lot, start + held, orderSize + held, finalMargin)
  {
    orderSize, finalMargin := start, margin(start + held);
    var difference := finalMargin - target;
    ghost var n: nat := 0;
    ghost var x, move := start + held, Move(target, lot);
    MovedOnce(x, move, 0);
    while (target < 0.0 && difference < 0.0) || (target > 0.0 && difference > 0.0)
      invariant difference == finalMargin - target && finalMargin == MarginOf(unit, orderSize + held)
      invariant Beyond(finalMargin, target) ==> lot > 0.0
      invariant orderSize + held == Moved(x, move, n) && Carries(unit, target, x, move, n)
      decreases Ahead(orderSize + held, target, lot)
    {
      ghost var before := orderSize + held;
      orderSize := orderSize + (if target < 0.0 then lot else -lot);
      assert orderSize + held == before + move;
      OneRound(unit, target, lot, x, n, before, orderSize + held);
      var newMargin := margin(orderSize + held);
      var newDifference := newMargin - target;
      if Worsens(newDifference, difference) {
        assert Adjusted(unit, target, lot, x, n, orderSize + held, finalMargin);
        return;
      }
      finalMargin := newMargin;
      difference := newDifference;
      n := n + 1;
    }
    assert Adjusted(unit, target, lot, x, n, orderSize + held, finalMargin);
  }

  lemma AdjustedIsDetermined(unit: real, target: real, lot: real, x: real, n: nat, holding: real, margin: real,
                             m: nat, other: real, otherMargin: real)
    requires Adjusted(unit, target, lot, x, n, holding, margin) && Adjusted(unit, target, lot, x, m, other, otherMargin)
    ensures n == m && holding == other && margin == otherMargin
  {
    var move := Move(target, lot);
    assert n < m ==> Abs(Moved(x, move, n) + move) <= Abs(Moved(x, move, n)) && Beyond(margin, target);
    assert m < n ==> Abs(Moved(x, move, m) + move) <= Abs(Moved(x, move, m)) && Beyond(otherMargin, target);
  }

  /** Only one outcome answers that description. */
  lemma SettlesIsDetermined(unit: real, target: real, lot: real, x: real, holding: real, margin: real, other: real,
                            otherMargin: real)
    requires Settles(unit, target, lot, x, holding, margin) && Settles(unit, target, lot, x, other, otherMargin)
    ensures holding == other && margin == otherMargin
  {
    var n: nat :| Adjusted(unit, target, lot, x, n, holding, margin);
    var m: nat :| Adjusted(unit, target, lot, x, m, other, otherMargin);
    AdjustedIsDetermined(unit, target, lot, x, n, holding, margin, m, other, otherMargin);
  }

  /** `amount_to_order`: `unit` is the margin of one unit of the holding. */
  method AmountToOrder(model: BuyingPowerModel, h: Holding, leverage: Leverage, lot: real, target: real, unit: real)
    returns (orderSize: real, finalMargin: real)
    requires unit == UnitMargin(model, h.lastPrice, h.multiplier, leverage)
    ensures (orderSize, finalMargin) == Amount(h.quantity, target, unit, lot)
  {
    var start := -h.quantity;
    if unit != 0.0 {
      start := start + target / unit;
    }
    start := RoundBy(start, lot, target < 0.0);
    var margin := q => InitialMargin(model, q, h.lastPrice, h.multiplier, leverage);
    ModelMargin(model, h, leverage, unit, margin);
    StartIsFirst(h.quantity, target, unit, lot, start);
    orderSize, finalMargin := Adjust(margin, unit, h.quantity, lot, target, start);
    AdjustedAtOnce(unit, target, lot, start + h.quantity, orderSize + h.quantity, finalMargin);
  }

  ghost predicate IsMarginOf(margin: real -> real, unit: real) {
    forall q {:trigger margin(q)} :: margin(q) == MarginOf(unit, q)
  }

  lemma ModelMargin(model: BuyingPowerModel, h: Holding, leverage: Leverage, unit: real, margin: real -> real)
    requires unit == UnitMargin(model, h.lastPrice, h.multiplier, leverage)
    requires forall q :: margin(q) == InitialMargin(model, q, h.lastPrice, h.multiplier, leverage)
    ensures IsMarginOf(margin, unit)
  {
    forall q ensures margin(q) == MarginOf(unit, q) {
      MarginIsProportional(model, q, h.lastPrice, h.multiplier, leverage);
    }
  }

  /** `Amount`, spelled out from the rounded order. */
  lemma StartIsFirst(held: real, target: real, unit: real, lot: real, start: real)
    requires start == RoundBy(-held + Exact(target, unit), lot, target < 0.0)
    ensures start + held == FirstHolding(held, target, unit, lot)
    ensures Beyond(MarginOf(unit, start + held), target) ==>
              lot > 0.0 && (if target < 0.0 then start + held > 0.0 else start + held < 0.0)
    ensures Amount(held, target, unit, lot)
            == (if Beyond(MarginOf(unit, start + held), target) then start + Move(target, lot) else start,
                MarginOf(unit, start + held))
  {
    assert start + held == FirstHolding(held, target, unit, lot);
    if Beyond(MarginOf(unit, start + held), target) {
      BeyondIsAcross(held, target, unit, lot);
    }
  }

  /** The margin reported is that of the order's own holding exactly when the rounded holding does not lie
      beyond the target. */
  lemma ReportedMarginIsTrueIff(held: real, target: real, unit: real, lot: real)
    requires unit != 0.0
    ensures var (order, margin) := Amount(held, target, unit, lot);
            margin == MarginOf(unit, order + held)
            <==> !Beyond(MarginOf(unit, FirstHolding(held, target, unit, lot)), target)
  {
    var first := FirstHolding(held, target, unit, lot);
    if Beyond(MarginOf(unit, first), target) {
      BeyondIsAcross(held, target, unit, lot);
      DifferentMargins(unit, first, first + Move(target, lot));
    }
  }

  lemma DifferentMargins(unit: real, x: real, y: real)
    requires unit != 0.0 && Abs(x) < Abs(y)
    ensures MarginOf(unit, x) != MarginOf(unit, y)
  {
    if unit > 0.0 {
      MarginGrows(unit, x, y);
    } else {
      MarginFlips(unit, x);
      MarginFlips(unit, y);
      MarginGrows(-unit, x, y);
    }
  }

  /** From the near side, or from across zero, the loop is over before it carries on. */
  lemma AdjustedAtOnce(unit: real, target: real, lot: real, x: real, holding: real, margin: real)
    requires Settles(unit, target, lot, x, holding, margin)
    requires Beyond(MarginOf(unit, x), target) ==> lot > 0.0 && (if target < 0.0 then x > 0.0 else x < 0.0)
    ensures margin == MarginOf(unit, x) && holding == if Beyond(margin, target) then x + Move(target, lot) else x
  {
    var move := Move(target, lot);
    var n: nat :| Adjusted(unit, target, lot, x, n, holding, margin);
    MovedOnce(x, move, 0);
    if n > 0 {
      CarriesFirst(unit, target, x, move, n);
    }
  }

  lemma CarriesFirst(unit: real, target: real, x: real, move: real, n: nat)
    requires Carries(unit, target, x, move, n) && n > 0
    ensures Beyond(MarginOf(unit, x), target) && Abs(x + move) <= Abs(x)
  {
    MovedOnce(x, move, 0);
  }
}
