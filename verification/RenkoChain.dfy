/** The chain the emitted bricks form. */
module RenkoChain {
  import opened Renko

  /** A body of one brick on the grid, bracketed by its wicks. */
  ghost predicate WellShaped(size: real, k: Brick) {
    && OnGrid(k.open, size) && OnGrid(k.close, size)
    && (if k.Rises() then k.close == k.open + size && k.low <= k.open && k.high == k.close
        else k.close == k.open - size && k.high >= k.open && k.low == k.close)
  }

  /** The next brick goes on from the last close, or turns back from the last open. */
  ghost predicate Follows(a: Brick, b: Brick) {
    b.open == if a.Rises() == b.Rises() then a.close else a.open
  }

  function TrendOf(k: Brick): Trend { if k.Rises() then Rising(k.open) else Falling(k.open) }

  /** What a brick may open at after the given trend. */
  ghost predicate Continues(size: real, trend: Trend, k: Brick) {
    match trend
    case NoTrend => true
    case Rising(lastOpen) => k.open == if k.Rises() then lastOpen + size else lastOpen
    case Falling(lastOpen) => k.open == if k.Rises() then lastOpen else lastOpen - size
  }

  /** `bricks` leads from one trend to another. */
  ghost predicate Chain(size: real, before: Trend, bricks: seq<Brick>, after: Trend)
    decreases |bricks|
  {
    if bricks == [] then before == after
    else
      && WellShaped(size, bricks[0]) && Continues(size, before, bricks[0])
      && Chain(size, TrendOf(bricks[0]), bricks[1..], after)
  }

  ghost predicate BodyOnGrid(size: real, b: Body) {
    OnGrid(b.openRate, size) && (b.trend != NoTrend ==> OnGrid(b.trend.lastOpen, size))
  }

  lemma GridNeighbours(x: real, size: real)
    requires OnGrid(x, size)
    ensures OnGrid(x + size, size) && OnGrid(x - size, size) && OnGrid(-x, size)
  {
    var k :| x == GridLine(k, size);
    NextLine(k, size);
    NextLine(k - 1, size);
    assert x + size == GridLine(k + 1, size);
    assert x - size == GridLine(k - 1, size);
    assert -x == GridLine(-k, size);
  }

  lemma {:induction false} EmitRisingChains(size: real, b: Body)
    requires size > 0.0 && Climbing(size, b) && BodyOnGrid(size, b)
    ensures var (after, bricks) := EmitRising(size, b);
            Chain(size, b.trend, bricks, after.trend) && BodyOnGrid(size, after)
    decreases Bricks(b.closeRate - b.openRate, size)
  {
    if b.closeRate > b.openRate + size {
      OneBrickLess(b.closeRate - b.openRate, size);
      GridNeighbours(b.openRate, size);
      var next := AfterRising(size, b);
      EmitRisingChains(size, next);
      var (after, bricks) := EmitRising(size, next);
      assert ([RisingBrick(size, b)] + bricks)[1..] == bricks;
    }
  }

  lemma RisingFeedChains(size: real, b: Body, rate: real)
    requires size > 0.0 && Settled(size, b) && BodyOnGrid(size, b) && rate > b.openRate
    ensures var (after, bricks) := Feed(size, b, rate);
            Chain(size, b.trend, bricks, after.trend) && BodyOnGrid(size, after)
  {
    var t := Touched(b, rate);
    match t.trend {
      case Falling(lastOpen) =>
        if rate > lastOpen + size {
          var from := t.(openRate := lastOpen);
          GridNeighbours(lastOpen, size);
          EmitRisingChains(size, AfterRising(size, from));
          var (after, bricks) := EmitRising(size, AfterRising(size, from));
          assert ([RisingBrick(size, from)] + bricks)[1..] == bricks;
        }
      case _ => EmitRisingChains(size, t);
    }
  }

  function FlipTrend(t: Trend): Trend {
    match t case NoTrend => NoTrend case Rising(o) => Falling(-o) case Falling(o) => Rising(-o)
  }

  lemma FlipShape(size: real, before: Trend, k: Brick)
    requires size > 0.0 && WellShaped(size, k) && Continues(size, before, k)
    ensures WellShaped(size, FlipBrick(k)) && Continues(size, FlipTrend(before), FlipBrick(k))
    ensures FlipTrend(TrendOf(k)) == TrendOf(FlipBrick(k))
  {
    GridNeighbours(k.open, size);
    GridNeighbours(k.close, size);
  }

  lemma {:induction false} FlipChain(size: real, before: Trend, bricks: seq<Brick>, after: Trend)
    requires size > 0.0 && Chain(size, before, bricks, after)
    ensures Chain(size, FlipTrend(before), FlipAll(bricks), FlipTrend(after))
    decreases |bricks|
  {
    if bricks != [] {
      var k := bricks[0];
      FlipShape(size, before, k);
      FlipChain(size, TrendOf(k), bricks[1..], after);
      assert FlipAll(bricks)[1..] == FlipAll(bricks[1..]);
    }
  }

  lemma FlipOnGrid(size: real, b: Body)
    requires BodyOnGrid(size, b)
    ensures BodyOnGrid(size, Flip(b))
  {
    GridNeighbours(b.openRate, size);
    if b.trend != NoTrend {
      GridNeighbours(b.trend.lastOpen, size);
    }
  }

  lemma FeedChains(size: real, b: Body, rate: real)
    requires size > 0.0 && Settled(size, b) && BodyOnGrid(size, b)
    ensures var (after, bricks) := Feed(size, b, rate);
            Chain(size, b.trend, bricks, after.trend) && BodyOnGrid(size, after)
  {
    if rate > b.openRate {
      RisingFeedChains(size, b, rate);
    } else if rate < b.openRate {
      FlipSettled(size, b);
      FlipOnGrid(size, b);
      RisingFeedChains(size, Flip(b), -rate);
      FlipFeed(size, b, rate);
      var (after, bricks) := Feed(size, b, rate);
      Unflip(size, b, after, bricks);
    }
  }

  lemma Unflip(size: real, b: Body, after: Body, bricks: seq<Brick>)
    requires size > 0.0 && Chain(size, Flip(b).trend, FlipAll(bricks), Flip(after).trend)
             && BodyOnGrid(size, Flip(after))
    ensures Chain(size, b.trend, bricks, after.trend) && BodyOnGrid(size, after)
  {
    FlipTwice(b);
    FlipTwice(after);
    FlipChain(size, Flip(b).trend, FlipAll(bricks), Flip(after).trend);
    FlipConcat(bricks, []);
    FlipOnGrid(size, Flip(after));
  }

  lemma {:induction false} ChainConcat(size: real, t0: Trend, xs: seq<Brick>, t1: Trend, ys: seq<Brick>, t2: Trend)
    requires Chain(size, t0, xs, t1) && Chain(size, t1, ys, t2)
    ensures Chain(size, t0, xs + ys, t2)
    decreases |xs|
  {
    if xs == [] {
      assert xs + ys == ys;
    } else {
      ChainConcat(size, TrendOf(xs[0]), xs[1..], t1, ys, t2);
      assert (xs + ys)[1..] == xs[1..] + ys;
    }
  }

  lemma {:induction false} FeedAllChains(size: real, b: Body, rates: seq<real>)
    requires size > 0.0 && Settled(size, b) && BodyOnGrid(size, b)
    ensures var (after, bricks) := FeedAll(size, b, rates);
            Chain(size, b.trend, bricks, after.trend) && BodyOnGrid(size, after)
    decreases |rates|
  {
    if rates != [] {
      var (mid, first) := Feed(size, b, rates[0]);
      FeedSettles(size, b, rates[0]);
      FeedChains(size, b, rates[0]);
      FeedAllChains(size, mid, rates[1..]);
      var (after, rest) := FeedAll(size, mid, rates[1..]);
      ChainConcat(size, b.trend, first, mid.trend, rest, after.trend);
    }
  }

  /** A chain spelled out brick by brick. */
  lemma {:induction false} ChainLinks(size: real, before: Trend, bricks: seq<Brick>, after: Trend)
    requires size > 0.0 && Chain(size, before, bricks, after)
    ensures forall i :: 0 <= i < |bricks| ==> WellShaped(size, bricks[i])
    ensures forall i :: 0 <= i < |bricks| - 1 ==> Follows(bricks[i], bricks[i + 1])
    ensures bricks != [] ==> after == TrendOf(bricks[|bricks| - 1])
    decreases |bricks|
  {
    if bricks != [] {
      ChainLinks(size, TrendOf(bricks[0]), bricks[1..], after);
      forall i | 0 <= i < |bricks| ensures WellShaped(size, bricks[i]) {
        assert i > 0 ==> bricks[i] == bricks[1..][i - 1];
      }
      forall i | 0 <= i < |bricks| - 1 ensures Follows(bricks[i], bricks[i + 1]) {
        assert bricks[i + 1] == bricks[1..][i];
        assert i > 0 ==> bricks[i] == bricks[1..][i - 1];
      }
    }
  }

  /** Over every run: each brick is one grid step bracketed by its wicks, a same-direction successor opens at
      the previous close and a reversal at the previous open, and no further brick is due at the end. */
  lemma BricksChain(size: real, rates: seq<real>)
    requires size > 0.0 && rates != []
    ensures var (after, bricks) := Consolidated(size, rates);
            && Settled(size, after)
            && (forall i :: 0 <= i < |bricks| ==> WellShaped(size, bricks[i]))
            && (forall i :: 0 <= i < |bricks| - 1 ==> Follows(bricks[i], bricks[i + 1]))
            && (bricks != [] ==>
                  after.trend == TrendOf(bricks[|bricks| - 1]) && after.openRate == bricks[|bricks| - 1].close)
  {
    var b := FirstBody(rates[0], size);
    FirstBodyIsSettled(rates[0], size);
    ClosestMultipleIsNearest(rates[0], size);
    FeedAllSettles(size, b, rates[1..]);
    FeedAllChains(size, b, rates[1..]);
    var (after, bricks) := FeedAll(size, b, rates[1..]);
    ChainLinks(size, b.trend, bricks, after.trend);
  }
}
