/** Wicked Renko bricks as a function of the closes fed to the consolidator. */
module Renko {
  import opened Reals

  datatype Brick = Brick(open: real, close: real, low: real, high: real) {
    predicate Rises() { close > open }
  }

  /** The direction of the last brick and the price it opened at. */
  datatype Trend = NoTrend | Rising(lastOpen: real) | Falling(lastOpen: real)

  /** The brick being built. */
  datatype Body = Body(openRate: real, closeRate: real, highRate: real, lowRate: real, trend: Trend)

  /** Rounded to the nearest multiple; `Decimal::round` sends the midpoint of [0, 1) to its even end, 0. */
  function GetClosestMultiple(price: real, size: real): (r: real)
    requires size > 0.0
  {
    var floorDiv := (price / size).Floor as real;
    var modulus := price - size * floorDiv;
    var round := if modulus / size <= 0.5 then 0.0 else 1.0;
    size * (floorDiv + round)
  }

  function GridLine(k: int, size: real): real { size * k as real }

  ghost predicate OnGrid(x: real, size: real) {
    exists k :: x == GridLine(k, size)
  }

  /** The price lies a fraction `f` of a brick above grid line `k`, and rounds to `k` or `k + 1`. */
  lemma ClosestMultipleIsALine(price: real, size: real) returns (k: int, f: real)
    requires size > 0.0
    ensures 0.0 <= f < 1.0 && price == GridLine(k, size) + size * f
    ensures GetClosestMultiple(price, size) == GridLine(if f <= 0.5 then k else k + 1, size)
  {
    var q := price / size;
    k := q.Floor;
    f := q - k as real;
    Spread(size, k as real, f);
    assert price == size * q;
    RealQuotient(price - size * k as real, size, f);
    assert size * (k as real + 0.0) == GridLine(k, size);
    assert size * (k as real + 1.0) == GridLine(k + 1, size);
  }

  lemma ClosestMultipleIsNearest(price: real, size: real)
    requires size > 0.0
    ensures OnGrid(GetClosestMultiple(price, size), size)
    ensures price - size / 2.0 <= GetClosestMultiple(price, size) <= price + size / 2.0
  {
    var k, f := ClosestMultipleIsALine(price, size);
    NextLine(k, size);
    Halves(size, f);
  }

  lemma NextLine(k: int, size: real)
    ensures GridLine(k + 1, size) == GridLine(k, size) + size
  {
  }

  lemma Halves(size: real, f: real)
    requires size > 0.0 && 0.0 <= f <= 1.0
    ensures 0.0 <= size * f <= size
    ensures if f <= 0.5 then size * f <= size / 2.0 else size * f >= size / 2.0
  {
  }

  lemma Spread(size: real, a: real, b: real)
    ensures size * (a + b) == size * a + size * b
  {
  }

  function FirstBody(price: real, size: real): Body
    requires size > 0.0
  {
    var rounded := GetClosestMultiple(price, size);
    Body(rounded, rounded, rounded, rounded, NoTrend)
  }

  /** How many whole bricks fit in a distance; bounds the emission loops. */
  function Bricks(distance: real, size: real): nat
    requires size > 0.0
  {
    if distance <= 0.0 then 0 else (distance / size).Floor + 1
  }

  lemma RealQuotient(x: real, size: real, y: real)
    requires size > 0.0 && x == size * y
    ensures x / size == y
  {
  }

  lemma OneBrickLess(distance: real, size: real)
    requires size > 0.0 && distance > size
    ensures Bricks(distance - size, size) < Bricks(distance, size)
  {
    var q := distance / size;
    assert size * (q - 1.0) == distance - size;
    RealQuotient(distance - size, size, q - 1.0);
    assert (q - 1.0).Floor == q.Floor - 1;
  }

  function RisingBrick(size: real, b: Body): Brick {
    Brick(b.openRate, b.openRate + size, b.lowRate, b.openRate + size)
  }

  function AfterRising(size: real, b: Body): Body {
    b.(openRate := b.openRate + size, lowRate := b.openRate + size, trend := Rising(b.openRate))
  }

  /** `emit_rising`. */
  function EmitRising(size: real, b: Body): (Body, seq<Brick>)
    requires size > 0.0
    decreases Bricks(b.closeRate - b.openRate, size)
  {
    if b.closeRate > b.openRate + size then
      OneBrickLess(b.closeRate - b.openRate, size);
      var (after, bricks) := EmitRising(size, AfterRising(size, b));
      (after, [RisingBrick(size, b)] + bricks)
    else (b, [])
  }

  function FallingBrick(size: real, b: Body): Brick {
    Brick(b.openRate, b.openRate - size, b.openRate - size, b.highRate)
  }

  function AfterFalling(size: real, b: Body): Body {
    b.(openRate := b.openRate - size, highRate := b.openRate - size, trend := Falling(b.openRate))
  }

  /** `emit_falling`. */
  function EmitFalling(size: real, b: Body): (Body, seq<Brick>)
    requires size > 0.0
    decreases Bricks(b.openRate - b.closeRate, size)
  {
    if b.closeRate < b.openRate - size then
      OneBrickLess(b.openRate - b.closeRate, size);
      var (after, bricks) := EmitFalling(size, AfterFalling(size, b));
      (after, [FallingBrick(size, b)] + bricks)
    else (b, [])
  }

  function Touched(b: Body, rate: real): Body {
    b.(closeRate := rate, highRate := Max(b.highRate, rate), lowRate := Min(b.lowRate, rate))
  }

  /** The emission one close causes. A reversal opens where the last brick did. */
  function Moved(size: real, b: Body): (Body, seq<Brick>)
    requires size > 0.0
  {
    if b.closeRate > b.openRate then
      match b.trend
      case Falling(lastOpen) =>
        if b.closeRate > lastOpen + size then
          var from := b.(openRate := lastOpen);
          var (after, bricks) := EmitRising(size, AfterRising(size, from));
          (after, [RisingBrick(size, from)] + bricks)
        else (b, [])
      case _ => EmitRising(size, b)
    else if b.closeRate < b.openRate then
      match b.trend
      case Rising(lastOpen) =>
        if b.closeRate < lastOpen - size then
          var from := b.(openRate := lastOpen);
          var (after, bricks) := EmitFalling(size, AfterFalling(size, from));
          (after, [FallingBrick(size, from)] + bricks)
        else (b, [])
      case _ => EmitFalling(size, b)
    else (b, [])
  }

  function Feed(size: real, b: Body, rate: real): (Body, seq<Brick>)
    requires size > 0.0
  {
    Moved(size, Touched(b, rate))
  }

  function FeedAll(size: real, b: Body, rates: seq<real>): (Body, seq<Brick>)
    requires size > 0.0
    decreases |rates|
  {
    if rates == [] then (b, [])
    else
      var (mid, first) := Feed(size, b, rates[0]);
      var (after, rest) := FeedAll(size, mid, rates[1..]);
      (after, first + rest)
  }

  // ---- Reflection: falling is rising upside down ----

  function Flip(b: Body): Body {
    Body(-b.openRate, -b.closeRate, -b.lowRate, -b.highRate,
         match b.trend case NoTrend => NoTrend case Rising(o) => Falling(-o) case Falling(o) => Rising(-o))
  }

  function FlipBrick(b: Brick): Brick { Brick(-b.open, -b.close, -b.high, -b.low) }

  function FlipAll(bricks: seq<Brick>): (r: seq<Brick>)
    ensures |r| == |bricks| && forall i :: 0 <= i < |r| ==> r[i] == FlipBrick(bricks[i])
  {
    seq(|bricks|, i requires 0 <= i < |bricks| => FlipBrick(bricks[i]))
  }

  lemma FlipCons(x: Brick, bricks: seq<Brick>)
    ensures FlipAll([x] + bricks) == [FlipBrick(x)] + FlipAll(bricks)
  {
  }

  lemma FlipTwice(b: Body)
    ensures Flip(Flip(b)) == b
  {
  }

  lemma {:induction false} FlipFalling(size: real, b: Body)
    requires size > 0.0
    ensures EmitRising(size, Flip(b)) == (Flip(EmitFalling(size, b).0), FlipAll(EmitFalling(size, b).1))
    decreases Bricks(b.openRate - b.closeRate, size)
  {
    if b.closeRate < b.openRate - size {
      OneBrickLess(b.openRate - b.closeRate, size);
      FlipFalling(size, AfterFalling(size, b));
      assert AfterRising(size, Flip(b)) == Flip(AfterFalling(size, b));
      assert FlipBrick(FallingBrick(size, b)) == RisingBrick(size, Flip(b));
      FlipCons(FallingBrick(size, b), EmitFalling(size, AfterFalling(size, b)).1);
    }
  }

  lemma {:induction false} FlipRising(size: real, b: Body)
    requires size > 0.0
    ensures EmitFalling(size, Flip(b)) == (Flip(EmitRising(size, b).0), FlipAll(EmitRising(size, b).1))
    decreases Bricks(b.closeRate - b.openRate, size)
  {
    if b.closeRate > b.openRate + size {
      OneBrickLess(b.closeRate - b.openRate, size);
      FlipRising(size, AfterRising(size, b));
      assert AfterFalling(size, Flip(b)) == Flip(AfterRising(size, b));
      assert FlipBrick(RisingBrick(size, b)) == FallingBrick(size, Flip(b));
      FlipCons(RisingBrick(size, b), EmitRising(size, AfterRising(size, b)).1);
    }
  }

  lemma FlipFeed(size: real, b: Body, rate: real)
    requires size > 0.0
    ensures Feed(size, Flip(b), -rate) == (Flip(Feed(size, b, rate).0), FlipAll(Feed(size, b, rate).1))
  {
    var t := Touched(b, rate);
    assert Touched(Flip(b), -rate) == Flip(t);
    if rate > t.openRate {
      match t.trend {
        case Falling(lastOpen) =>
          var from := t.(openRate := lastOpen);
          assert Flip(t).(openRate := -lastOpen) == Flip(from);
          assert AfterFalling(size, Flip(from)) == Flip(AfterRising(size, from));
          assert FlipBrick(RisingBrick(size, from)) == FallingBrick(size, Flip(from));
          FlipRising(size, AfterRising(size, from));
          FlipCons(RisingBrick(size, from), EmitRising(size, AfterRising(size, from)).1);
        case _ => FlipRising(size, t);
      }
    } else if rate < t.openRate {
      match t.trend {
        case Rising(lastOpen) =>
          var from := t.(openRate := lastOpen);
          assert Flip(t).(openRate := -lastOpen) == Flip(from);
          assert AfterRising(size, Flip(from)) == Flip(AfterFalling(size, from));
          assert FlipBrick(FallingBrick(size, from)) == RisingBrick(size, Flip(from));
          FlipFalling(size, AfterFalling(size, from));
          FlipCons(FallingBrick(size, from), EmitFalling(size, AfterFalling(size, from)).1);
        case _ => FlipFalling(size, t);
      }
    }
  }

  // ---- The state every update leaves behind ----

  /** Open and close lie within the wicks, the open continues the last brick, and no brick is due. */
  ghost predicate Settled(size: real, b: Body) {
    && b.lowRate <= b.openRate <= b.highRate && b.lowRate <= b.closeRate <= b.highRate
    && match b.trend
       case NoTrend => b.openRate - size <= b.closeRate <= b.openRate + size
       case Rising(lastOpen) => b.openRate == lastOpen + size && lastOpen - size <= b.closeRate <= b.openRate + size
       case Falling(lastOpen) => b.openRate == lastOpen - size && b.openRate - size <= b.closeRate <= lastOpen + size
  }

  lemma FlipSettled(size: real, b: Body)
    ensures Settled(size, Flip(b)) <==> Settled(size, b)
  {
  }

  lemma FirstBodyIsSettled(price: real, size: real)
    requires size > 0.0
    ensures Settled(size, FirstBody(price, size))
  {
  }

  /** Between the bricks of one rising run. */
  ghost predicate Climbing(size: real, b: Body) {
    && b.lowRate <= b.openRate < b.closeRate <= b.highRate
    && (b.trend == NoTrend || (b.trend.Rising? && b.openRate == b.trend.lastOpen + size))
  }

  lemma {:induction false} EmitRisingSettles(size: real, b: Body)
    requires size > 0.0 && Climbing(size, b)
    ensures Settled(size, EmitRising(size, b).0)
    decreases Bricks(b.closeRate - b.openRate, size)
  {
    if b.closeRate > b.openRate + size {
      OneBrickLess(b.closeRate - b.openRate, size);
      EmitRisingSettles(size, AfterRising(size, b));
    }
  }

  lemma RisingFeedSettles(size: real, b: Body, rate: real)
    requires size > 0.0 && Settled(size, b) && rate > b.openRate
    ensures Settled(size, Feed(size, b, rate).0)
  {
    var t := Touched(b, rate);
    match t.trend {
      case Falling(lastOpen) =>
        if rate > lastOpen + size {
          EmitRisingSettles(size, AfterRising(size, t.(openRate := lastOpen)));
        }
      case _ => EmitRisingSettles(size, t);
    }
  }

  /** Every update leaves a settled body: no further brick is due. */
  lemma FeedSettles(size: real, b: Body, rate: real)
    requires size > 0.0 && Settled(size, b)
    ensures Settled(size, Feed(size, b, rate).0)
  {
    if rate > b.openRate {
      RisingFeedSettles(size, b, rate);
    } else if rate < b.openRate {
      FlipSettled(size, b);
      RisingFeedSettles(size, Flip(b), -rate);
      FlipFeed(size, b, rate);
      FlipSettled(size, Feed(size, b, rate).0);
    }
  }

  lemma {:induction false} FeedAllSettles(size: real, b: Body, rates: seq<real>)
    requires size > 0.0 && Settled(size, b)
    ensures Settled(size, FeedAll(size, b, rates).0)
    decreases |rates|
  {
    if rates != [] {
      FeedSettles(size, b, rates[0]);
      FeedAllSettles(size, Feed(size, b, rates[0]).0, rates[1..]);
    }
  }

  // ---- Rate independence ----

  ghost predicate Between(p: real, a: real, b: real) { Min(a, b) <= p <= Max(a, b) }

  /** Stopping at `p` on the way up to `rate` splits one emission in two. */
  lemma {:induction false} EmissionSplits(size: real, b: Body, p: real, rate: real, high: real, top: real)
    requires size > 0.0 && p <= rate
    ensures var (mid, first) := EmitRising(size, b.(closeRate := p, highRate := high));
            var (after, rest) := EmitRising(size, mid.(closeRate := rate, highRate := top));
            EmitRising(size, b.(closeRate := rate, highRate := top)) == (after, first + rest)
    decreases Bricks(p - b.openRate, size)
  {
    if p > b.openRate + size {
      OneBrickLess(p - b.openRate, size);
      EmissionSplits(size, AfterRising(size, b), p, rate, high, top);
      assert AfterRising(size, b.(closeRate := p, highRate := high))
             == AfterRising(size, b).(closeRate := p, highRate := high);
      assert AfterRising(size, b.(closeRate := rate, highRate := top))
             == AfterRising(size, b).(closeRate := rate, highRate := top);
      var (mid, first) := EmitRising(size, AfterRising(size, b).(closeRate := p, highRate := high));
      var (after, rest) := EmitRising(size, mid.(closeRate := rate, highRate := top));
      assert ([RisingBrick(size, b)] + first) + rest == [RisingBrick(size, b)] + (first + rest);
    } else {
      var bricks := EmitRising(size, b.(closeRate := rate, highRate := top)).1;
      assert [] + bricks == bricks;
    }
  }

  /** What a rising emission that made a brick leaves: an open at the wick's low and below the close. */
  lemma {:induction false} EmissionLeaves(size: real, b: Body)
    requires size > 0.0
    ensures var after := EmitRising(size, b).0;
            && after.closeRate == b.closeRate && after.highRate == b.highRate
            && (b.closeRate > b.openRate ==> b.closeRate > after.openRate)
            && (b.trend.Rising? && b.lowRate == b.openRate ==> after.trend.Rising? && after.lowRate == after.openRate)
            && (b.closeRate > b.openRate + size ==> after.trend.Rising? && after.lowRate == after.openRate)
    decreases Bricks(b.closeRate - b.openRate, size)
  {
    if b.closeRate > b.openRate + size {
      OneBrickLess(b.closeRate - b.openRate, size);
      EmissionLeaves(size, AfterRising(size, b));
    }
  }

  /** Rising, with no brick due at `p`: the stop only touches the wicks, as the way up does anyway. */
  lemma QuietStop(size: real, b: Body, p: real, rate: real)
    requires size > 0.0 && Settled(size, b) && b.closeRate <= p <= rate
    requires Feed(size, b, p).1 == []
    ensures Feed(size, b, p).0 == Touched(b, p)
    ensures Feed(size, Feed(size, b, p).0, rate) == Feed(size, b, rate)
  {
  }

  /** Rising, with bricks emitted at `p` in a run that goes on. */
  lemma LoudStopInRise(size: real, b: Body, p: real, rate: real)
    requires size > 0.0 && Settled(size, b) && b.closeRate <= p <= rate && b.openRate < p
    requires !b.trend.Falling? && Feed(size, b, p).1 != []
    ensures var (mid, first) := Feed(size, b, p);
            var (after, rest) := Feed(size, mid, rate);
            Feed(size, b, rate) == (after, first + rest)
  {
    var t, top := Touched(b, p), Max(b.highRate, rate);
    EmissionLeaves(size, t);
    EmissionSplits(size, t, p, rate, t.highRate, top);
    assert t.(closeRate := p, highRate := t.highRate) == t;
    var mid := EmitRising(size, t).0;
    assert Touched(mid, rate) == mid.(closeRate := rate, highRate := top);
    assert Touched(b, rate) == t.(closeRate := rate, highRate := top);
  }

  /** Rising, with the fall reversed at `p`. */
  lemma LoudStopAtReversal(size: real, b: Body, p: real, rate: real)
    requires size > 0.0 && Settled(size, b) && b.closeRate <= p <= rate && b.openRate < p
    requires b.trend.Falling? && p > b.trend.lastOpen + size
    ensures var (mid, first) := Feed(size, b, p);
            var (after, rest) := Feed(size, mid, rate);
            Feed(size, b, rate) == (after, first + rest)
  {
    var t, top := Touched(b, p), Max(b.highRate, rate);
    var start := t.(openRate := t.trend.lastOpen);
    var from := AfterRising(size, start);
    EmissionLeaves(size, from);
    EmissionSplits(size, from, p, rate, from.highRate, top);
    assert from.(closeRate := p, highRate := from.highRate) == from;
    var (mid, rising) := EmitRising(size, from);
    assert Touched(mid, rate) == mid.(closeRate := rate, highRate := top);
    var (after, rest) := EmitRising(size, Touched(mid, rate));
    assert Touched(b, rate).(openRate := t.trend.lastOpen) == start.(closeRate := rate, highRate := top);
    assert AfterRising(size, start.(closeRate := rate, highRate := top)) == from.(closeRate := rate, highRate := top);
    assert ([RisingBrick(size, start)] + rising) + rest == [RisingBrick(size, start)] + (rising + rest);
  }

  lemma RisingRateIndependence(size: real, b: Body, p: real, rate: real)
    requires size > 0.0 && Settled(size, b) && b.closeRate <= p <= rate
    ensures var (mid, first) := Feed(size, b, p);
            var (after, rest) := Feed(size, mid, rate);
            Feed(size, b, rate) == (after, first + rest)
  {
    if Feed(size, b, p).1 == [] {
      QuietStop(size, b, p, rate);
      assert [] + Feed(size, b, rate).1 == Feed(size, b, rate).1;
    } else if b.trend.Falling? {
      LoudStopAtReversal(size, b, p, rate);
    } else {
      LoudStopInRise(size, b, p, rate);
    }
  }

  lemma FlipConcat(a: seq<Brick>, b: seq<Brick>)
    ensures FlipAll(a + b) == FlipAll(a) + FlipAll(b)
    ensures FlipAll(FlipAll(a)) == a
  {
  }

  /** Any price between two consecutive closes may be inserted: bricks and body come out the same. */
  lemma RateIndependence(size: real, b: Body, p: real, rate: real)
    requires size > 0.0 && Settled(size, b) && Between(p, b.closeRate, rate)
    ensures var (mid, first) := Feed(size, b, p);
            var (after, rest) := Feed(size, mid, rate);
            Feed(size, b, rate) == (after, first + rest)
  {
    if b.closeRate <= p <= rate {
      RisingRateIndependence(size, b, p, rate);
    } else {
      var (mid, first) := Feed(size, b, p);
      var (after, rest) := Feed(size, mid, rate);
      FlipSettled(size, b);
      RisingRateIndependence(size, Flip(b), -p, -rate);
      FlipFeed(size, b, p);
      FlipFeed(size, mid, rate);
      FlipFeed(size, b, rate);
      FlipTwice(after);
      FlipTwice(Feed(size, b, rate).0);
      FlipConcat(first, rest);
      FlipConcat(Feed(size, b, rate).1, []);
      FlipConcat(first + rest, []);
    }
  }

  lemma {:induction false} FeedAllConcat(size: real, b: Body, xs: seq<real>, ys: seq<real>)
    requires size > 0.0
    ensures var (mid, first) := FeedAll(size, b, xs);
            var (after, rest) := FeedAll(size, mid, ys);
            FeedAll(size, b, xs + ys) == (after, first + rest)
    decreases |xs|
  {
    if xs == [] {
      assert xs + ys == ys;
      assert [] + FeedAll(size, b, ys).1 == FeedAll(size, b, ys).1;
    } else {
      assert (xs + ys)[1..] == xs[1..] + ys;
      var (one, bricks) := Feed(size, b, xs[0]);
      FeedAllConcat(size, one, xs[1..], ys);
      var (mid, first) := FeedAll(size, one, xs[1..]);
      var (after, rest) := FeedAll(size, mid, ys);
      assert (bricks + first) + rest == bricks + (first + rest);
    }
  }

  /** The whole consolidator: the first close sets the body, the others are fed to it. */
  function Consolidated(size: real, rates: seq<real>): (Body, seq<Brick>)
    requires size > 0.0 && rates != []
  {
    FeedAll(size, FirstBody(rates[0], size), rates[1..])
  }

  lemma {:induction false} LastCloseIsLastRate(size: real, b: Body, rates: seq<real>)
    requires size > 0.0
    ensures FeedAll(size, b, rates).0.closeRate == if rates == [] then b.closeRate else rates[|rates| - 1]
    decreases |rates|
  {
    if rates != [] {
      FeedKeepsRate(size, b, rates[0]);
      LastCloseIsLastRate(size, Feed(size, b, rates[0]).0, rates[1..]);
    }
  }

  lemma FeedKeepsRate(size: real, b: Body, rate: real)
    requires size > 0.0
    ensures Feed(size, b, rate).0.closeRate == rate
  {
    var t := Touched(b, rate);
    if rate > t.openRate {
      EmissionLeaves(size, if t.trend.Falling? then AfterRising(size, t.(openRate := t.trend.lastOpen)) else t);
    } else if rate < t.openRate {
      FlipFeed(size, b, rate);
      var u := Flip(t);
      EmissionLeaves(size, if u.trend.Falling? then AfterRising(size, u.(openRate := u.trend.lastOpen)) else u);
      assert Touched(Flip(b), -rate) == u;
    }
  }

  /** The close the consolidator holds before rate `i`: the previous one, or the rounded first. */
  function CloseBefore(size: real, rates: seq<real>, i: nat): real
    requires size > 0.0 && 1 <= i <= |rates|
  {
    if i == 1 then GetClosestMultiple(rates[0], size) else rates[i - 1]
  }

  /** Rate independence of a whole run: inserting a price between two consecutive closes changes
      neither the sequence of bricks nor the final body. */
  lemma InsertionChangesNothing(size: real, rates: seq<real>, i: nat, p: real)
    requires size > 0.0 && 1 <= i < |rates|
    requires Between(p, CloseBefore(size, rates, i), rates[i])
    ensures Consolidated(size, rates[..i] + [p] + rates[i..]) == Consolidated(size, rates)
  {
    var b := FirstBody(rates[0], size);
    FirstBodyIsSettled(rates[0], size);
    LastCloseIsLastRate(size, b, rates[1..i]);
    InsertAt(size, b, rates[1..i], p, rates[i], rates[i + 1..]);
    SplitAround(rates, i, p);
  }

  lemma SplitAround(rates: seq<real>, i: nat, p: real)
    requires 1 <= i < |rates|
    ensures rates[1..] == rates[1..i] + ([rates[i]] + rates[i + 1..])
    ensures (rates[..i] + [p] + rates[i..])[1..] == rates[1..i] + ([p] + ([rates[i]] + rates[i + 1..]))
    ensures (rates[..i] + [p] + rates[i..])[0] == rates[0]
  {
  }

  lemma InsertAt(size: real, b: Body, xs: seq<real>, p: real, rate: real, ys: seq<real>)
    requires size > 0.0 && Settled(size, b)
    requires Between(p, FeedAll(size, b, xs).0.closeRate, rate)
    ensures FeedAll(size, b, xs + ([p] + ([rate] + ys))) == FeedAll(size, b, xs + ([rate] + ys))
  {
    FeedAllSettles(size, b, xs);
    var mid := FeedAll(size, b, xs).0;
    RateIndependence(size, mid, p, rate);
    TwoFeeds(size, mid, p, rate, ys);
    FeedAllConcat(size, b, xs, [rate] + ys);
    FeedAllConcat(size, b, xs, [p] + ([rate] + ys));
  }

  lemma TwoFeeds(size: real, b: Body, p: real, rate: real, ys: seq<real>)
    requires size > 0.0
    requires var (mid, first) := Feed(size, b, p);
             var (after, rest) := Feed(size, mid, rate);
             Feed(size, b, rate) == (after, first + rest)
    ensures FeedAll(size, b, [p] + ([rate] + ys)) == FeedAll(size, b, [rate] + ys)
  {
    var (mid, first) := Feed(size, b, p);
    var (after, rest) := Feed(size, mid, rate);
    var (end, more) := FeedAll(size, after, ys);
    assert ([p] + ([rate] + ys))[1..] == [rate] + ys;
    assert ([rate] + ys)[1..] == ys;
    assert (first + rest) + more == first + (rest + more);
  }

  // ---- The first close is rounded: exactly when a price after it may be inserted ----

  lemma HighStopShows(size: real, b: Body, p: real, rate: real)
    requires size > 0.0 && b.trend == NoTrend && b.openRate == b.closeRate == b.lowRate == b.highRate
    requires b.openRate < p <= b.openRate + size && rate < p
    ensures var (mid, first) := Feed(size, b, p);
            var (after, rest) := Feed(size, mid, rate);
            Feed(size, b, rate) != (after, first + rest)
  {
    var (mid, first) := Feed(size, b, p);
    assert mid == Touched(b, p) && first == [];
    var (after, rest) := Feed(size, mid, rate);
    var (plain, bricks) := Feed(size, b, rate);
    if rate < b.openRate - size {
      assert rest[0].high == p && bricks[0].high == b.openRate;
      assert (first + rest)[0] == rest[0];
    } else {
      assert after.highRate == p && plain.highRate < p;
    }
  }

  /** After the very first close, a price on the way to the second leaves no trace exactly when it lies
      between the rounded first close and the second; on the stretch the rounding skipped it shows as a wick. */
  lemma FirstInsertionIff(size: real, a: real, p: real, rate: real)
    requires size > 0.0 && Between(p, a, rate)
    ensures Consolidated(size, [a, p, rate]) == Consolidated(size, [a, rate])
            <==> Between(p, GetClosestMultiple(a, size), rate)
  {
    var b := FirstBody(a, size);
    var r := b.openRate;
    ClosestMultipleIsNearest(a, size);
    OneFeed(size, b, rate);
    PairOfFeeds(size, b, p, rate);
    assert [a, p, rate][1..] == [p, rate] && [a, rate][1..] == [rate];
    if Between(p, r, rate) {
      FirstBodyIsSettled(a, size);
      RateIndependence(size, b, p, rate);
    } else if p > r {
      HighStopShows(size, b, p, rate);
    } else {
      var (mid, first) := Feed(size, b, p);
      var (after, rest) := Feed(size, mid, rate);
      HighStopShows(size, Flip(b), -p, -rate);
      FlipFeed(size, b, p);
      FlipFeed(size, mid, rate);
      FlipFeed(size, b, rate);
      FlipConcat(first, rest);
    }
  }

  /** However the run goes on, that price leaves no trace in it: exactly under the same condition. */
  lemma FirstInsertionNeverShowsIff(size: real, a: real, p: real, rate: real)
    requires size > 0.0 && Between(p, a, rate)
    ensures (forall ys :: Consolidated(size, [a, p, rate] + ys) == Consolidated(size, [a, rate] + ys))
            <==> Between(p, GetClosestMultiple(a, size), rate)
  {
    if Between(p, GetClosestMultiple(a, size), rate) {
      forall ys ensures Consolidated(size, [a, p, rate] + ys) == Consolidated(size, [a, rate] + ys) {
        var rates := [a, rate] + ys;
        assert rates[..1] + [p] + rates[1..] == [a, p, rate] + ys;
        InsertionChangesNothing(size, rates, 1, p);
      }
    } else {
      FirstInsertionIff(size, a, p, rate);
      assert [a, p, rate] + [] == [a, p, rate] && [a, rate] + [] == [a, rate];
    }
  }

  lemma OneFeed(size: real, b: Body, rate: real)
    requires size > 0.0
    ensures FeedAll(size, b, [rate]) == Feed(size, b, rate)
  {
    var bricks := Feed(size, b, rate).1;
    assert bricks + [] == bricks;
  }

  lemma PairOfFeeds(size: real, b: Body, p: real, rate: real)
    requires size > 0.0
    ensures var (mid, first) := Feed(size, b, p);
            var (after, rest) := Feed(size, mid, rate);
            FeedAll(size, b, [p, rate]) == (after, first + rest)
  {
    assert [p, rate][1..] == [rate];
    OneFeed(size, Feed(size, b, p).0, rate);
  }

  /** Bricks of one: a first close of 0.4 is rounded to 0, so a price of 0.3 on the way down to -0.5 is
      above everything the consolidator has seen, and shows as a wick. */
  lemma FirstInsertionShows()
    ensures Between(0.3, 0.4, -0.5) && Consolidated(1.0, [0.4, 0.3, -0.5]) != Consolidated(1.0, [0.4, -0.5])
  {
    assert (0.4 / 1.0).Floor == 0;
    FirstInsertionIff(1.0, 0.4, 0.3, -0.5);
  }
}
