/** The mutable Renko consolidator: a working brick, and a queue of bricks not yet handed out. */
module RenkoConsolidator {
  import opened Results
  import opened TradeBars
  import opened Renko
  import opened RenkoChain

  datatype Direction = Up | Down

  datatype InputBar = InputBar(time: int, close: real, symbol: nat, venue: Option<nat>)

  /** A brick as a bar with zero volume. */
  function BarOf(k: Brick, symbol: nat, venue: Option<nat>, openOn: int, closeOn: int): TradeBar {
    TradeBar(symbol, venue, openOn, closeOn, k.open, k.high, k.low, k.close, 0.0,
             if closeOn < openOn then 0 else closeOn - openOn)
  }

  /** The bars of the bricks one update emits: the first starts where the working brick did, the
      others, and the next working brick, at the update itself. */
  function BarsOf(bricks: seq<Brick>, symbol: nat, venue: Option<nat>, openOn: int, now: int): seq<TradeBar> {
    seq(|bricks|, i requires 0 <= i < |bricks| => BarOf(bricks[i], symbol, venue, if i == 0 then openOn else now, now))
  }

  lemma BarsOfCons(k: Brick, bricks: seq<Brick>, symbol: nat, venue: Option<nat>, openOn: int, now: int)
    ensures BarsOf([k] + bricks, symbol, venue, openOn, now)
            == [BarOf(k, symbol, venue, openOn, now)] + BarsOf(bricks, symbol, venue, now, now)
  {
  }

  lemma BarsOfAppend(bricks: seq<Brick>, k: Brick, symbol: nat, venue: Option<nat>, openOn: int, now: int)
    ensures BarsOf(bricks + [k], symbol, venue, openOn, now)
            == BarsOf(bricks, symbol, venue, openOn, now)
               + [BarOf(k, symbol, venue, if bricks == [] then openOn else now, now)]
  {
  }

  class RenkoConsolidator {
    const brickSize: real
    var firstTick: bool
    var openOn: Option<int>
    var closeOn: Option<int>
    var openRate: real
    var closeRate: real
    var highRate: real
    var lowRate: real
    var lastBrickOpen: Option<real>
    var lastBrickDirection: Option<Direction>
    var symbol: Option<nat>
    var venue: Option<nat>
    var pending: seq<TradeBar>

    ghost function Trend(): Renko.Trend
      reads this
    {
      match (lastBrickDirection, lastBrickOpen)
      case (Some(Up), Some(open)) => Rising(open)
      case (Some(Down), Some(open)) => Falling(open)
      case _ => NoTrend
    }

    /** The brick being built. */
    ghost function Body(): Renko.Body
      reads this
    {
      Renko.Body(openRate, closeRate, highRate, lowRate, Trend())
    }

    ghost predicate Valid()
      reads this
    {
      && brickSize > 0.0
      && (lastBrickOpen.Some? <==> lastBrickDirection.Some?)
      && (firstTick ==> pending == [] && Trend() == NoTrend)
      && (!firstTick ==> openOn.Some? && closeOn.Some? && Settled(brickSize, Body()) && BodyOnGrid(brickSize, Body()))
    }

    constructor (brickSize: real)
      requires brickSize > 0.0
      ensures Valid() && firstTick && pending == [] && this.brickSize == brickSize
    {
      this.brickSize := brickSize;
      firstTick, openOn, closeOn := true, None, None;
      openRate, closeRate, highRate, lowRate := 0.0, 0.0, 0.0, 0.0;
      lastBrickOpen, lastBrickDirection, symbol, venue, pending := None, None, None, None, [];
    }

    method Push(open: real, close: real, low: real, high: real, now: int, barSymbol: nat)
      requires openOn.Some? && closeOn == Some(now)
      modifies this`pending
      ensures pending == old(pending) + [BarOf(Brick(open, close, low, high), barSymbol, venue, openOn.value, now)]
    {
      var period := if now < openOn.value then 0 else now - openOn.value;
      pending := pending + [TradeBar(barSymbol, venue, openOn.value, now, open, high, low, close, 0.0, period)];
    }

    /** One brick up from `open`. */
    method PutRising(open: real, now: int, barSymbol: nat)
      requires openOn.Some? && closeOn == Some(now)
      modifies this`pending, this`openRate, this`lowRate, this`openOn, this`lastBrickOpen, this`lastBrickDirection
      ensures lastBrickOpen.Some? && lastBrickDirection.Some? && openOn == Some(now)
      ensures var from := old(Body()).(openRate := open);
              && Body() == AfterRising(brickSize, from)
              && pending == old(pending)
                         + [BarOf(RisingBrick(brickSize, from), barSymbol, venue, old(openOn).value, now)]
    {
      var limit := open + brickSize;
      Push(open, limit, lowRate, limit, now, barSymbol);
      lastBrickOpen, lastBrickDirection := Some(open), Some(Up);
      openOn := closeOn;
      openRate, lowRate := limit, limit;
    }

    method EmitRising(now: int, barSymbol: nat)
      requires brickSize > 0.0 && openOn.Some? && closeOn == Some(now)
      requires lastBrickOpen.Some? <==> lastBrickDirection.Some?
      modifies this`pending, this`openRate, this`lowRate, this`openOn, this`lastBrickOpen, this`lastBrickDirection
      ensures lastBrickOpen.Some? <==> lastBrickDirection.Some?
      ensures var (after, bricks) := Renko.EmitRising(brickSize, old(Body()));
              && Body() == after
              && pending == old(pending) + BarsOf(bricks, barSymbol, venue, old(openOn).value, now)
              && openOn == (if bricks == [] then old(openOn) else Some(now))
    {
      ghost var done: seq<Brick> := [];
      ghost var (after, bricks) := Renko.EmitRising(brickSize, Body());
      var limit := openRate + brickSize;
      while closeRate > limit
        invariant openOn.Some? && (lastBrickOpen.Some? <==> lastBrickDirection.Some?)
        invariant closeRate == old(closeRate) && limit == old(openRate) + brickSize
        invariant openRate >= old(openRate)
        invariant Renko.EmitRising(brickSize, Body()).0 == after
        invariant bricks == done + Renko.EmitRising(brickSize, Body()).1
        invariant pending == old(pending) + BarsOf(done, barSymbol, venue, old(openOn).value, now)
        invariant openOn == (if done == [] then old(openOn) else Some(now))
        decreases Bricks(closeRate - openRate, brickSize)
      {
        var limit := openRate + brickSize;
        if closeRate <= limit { break; }
        OneBrickLess(closeRate - openRate, brickSize);
        ghost var b := Body();
        PutRising(openRate, now, barSymbol);
        BarsOfAppend(done, RisingBrick(brickSize, b), barSymbol, venue, old(openOn).value, now);
        done := done + [RisingBrick(brickSize, b)];
      }
    }

    /** One brick down from `open`. */
    method PutFalling(open: real, now: int, barSymbol: nat)
      requires openOn.Some? && closeOn == Some(now)
      modifies this`pending, this`openRate, this`highRate, this`openOn, this`lastBrickOpen, this`lastBrickDirection
      ensures lastBrickOpen.Some? && lastBrickDirection.Some? && openOn == Some(now)
      ensures var from := old(Body()).(openRate := open);
              && Body() == AfterFalling(brickSize, from)
              && pending == old(pending)
                         + [BarOf(FallingBrick(brickSize, from), barSymbol, venue, old(openOn).value, now)]
    {
      var limit := open - brickSize;
      Push(open, limit, limit, highRate, now, barSymbol);
      lastBrickOpen, lastBrickDirection := Some(open), Some(Down);
      openOn := closeOn;
      openRate, highRate := limit, limit;
    }

    method EmitFalling(now: int, barSymbol: nat)
      requires brickSize > 0.0 && openOn.Some? && closeOn == Some(now)
      requires lastBrickOpen.Some? <==> lastBrickDirection.Some?
      modifies this`pending, this`openRate, this`highRate, this`openOn, this`lastBrickOpen, this`lastBrickDirection
      ensures lastBrickOpen.Some? <==> lastBrickDirection.Some?
      ensures var (after, bricks) := Renko.EmitFalling(brickSize, old(Body()));
              && Body() == after
              && pending == old(pending) + BarsOf(bricks, barSymbol, venue, old(openOn).value, now)
              && openOn == (if bricks == [] then old(openOn) else Some(now))
    {
      ghost var done: seq<Brick> := [];
      ghost var (after, bricks) := Renko.EmitFalling(brickSize, Body());
      var limit := openRate - brickSize;
      while closeRate < limit
        invariant openOn.Some? && (lastBrickOpen.Some? <==> lastBrickDirection.Some?)
        invariant closeRate == old(closeRate) && limit == old(openRate) - brickSize
        invariant openRate <= old(openRate)
        invariant Renko.EmitFalling(brickSize, Body()).0 == after
        invariant bricks == done + Renko.EmitFalling(brickSize, Body()).1
        invariant pending == old(pending) + BarsOf(done, barSymbol, venue, old(openOn).value, now)
        invariant openOn == (if done == [] then old(openOn) else Some(now))
        decreases Bricks(openRate - closeRate, brickSize)
      {
        var limit := openRate - brickSize;
        if closeRate >= limit { break; }
        OneBrickLess(openRate - closeRate, brickSize);
        ghost var b := Body();
        PutFalling(openRate, now, barSymbol);
        BarsOfAppend(done, FallingBrick(brickSize, b), barSymbol, venue, old(openOn).value, now);
        done := done + [FallingBrick(brickSize, b)];
      }
    }

    /** The move up: continue a rise, or reverse a fall once the close clears the last brick's open. */
    method MoveUp(now: int, barSymbol: nat)
      requires brickSize > 0.0 && openOn.Some? && closeOn == Some(now) && closeRate > openRate
      requires lastBrickOpen.Some? <==> lastBrickDirection.Some?
      modifies this`pending, this`openRate, this`lowRate, this`openOn, this`lastBrickOpen, this`lastBrickDirection
      ensures openOn.Some? && (lastBrickOpen.Some? <==> lastBrickDirection.Some?)
      ensures var (after, bricks) := Moved(brickSize, old(Body()));
              Body() == after
              && pending == old(pending) + BarsOf(bricks, barSymbol, venue, old(openOn).value, now)
              && openOn == (if bricks == [] then old(openOn) else Some(now))
    {
      if lastBrickDirection == Some(Down) {
        var lastOpen := lastBrickOpen.value;
        var limit := lastOpen + brickSize;
        if closeRate > limit {
          ghost var from := Body().(openRate := lastOpen);
          PutRising(lastOpen, now, barSymbol);
          BarsOfCons(RisingBrick(brickSize, from), Renko.EmitRising(brickSize, Body()).1, barSymbol, venue,
              old(openOn).value, now);
          EmitRising(now, barSymbol);
        }
      } else {
        EmitRising(now, barSymbol);
      }
    }

    method MoveDown(now: int, barSymbol: nat)
      requires brickSize > 0.0 && openOn.Some? && closeOn == Some(now) && closeRate < openRate
      requires lastBrickOpen.Some? <==> lastBrickDirection.Some?
      modifies this`pending, this`openRate, this`highRate, this`openOn, this`lastBrickOpen, this`lastBrickDirection
      ensures openOn.Some? && (lastBrickOpen.Some? <==> lastBrickDirection.Some?)
      ensures var (after, bricks) := Moved(brickSize, old(Body()));
              Body() == after
              && pending == old(pending) + BarsOf(bricks, barSymbol, venue, old(openOn).value, now)
              && openOn == (if bricks == [] then old(openOn) else Some(now))
    {
      if lastBrickDirection == Some(Up) {
        var lastOpen := lastBrickOpen.value;
        var limit := lastOpen - brickSize;
        if closeRate < limit {
          ghost var from := Body().(openRate := lastOpen);
          PutFalling(lastOpen, now, barSymbol);
          BarsOfCons(FallingBrick(brickSize, from), Renko.EmitFalling(brickSize, Body()).1, barSymbol, venue,
              old(openOn).value, now);
          EmitFalling(now, barSymbol);
        }
      } else {
        EmitFalling(now, barSymbol);
      }
    }

    method TakeFirstTick(bar: InputBar)
      requires Valid() && firstTick
      modifies this`firstTick, this`openOn, this`closeOn, this`openRate, this`highRate, this`lowRate, this`closeRate
      ensures Valid() && !firstTick && closeOn == openOn == Some(bar.time) && Body() == FirstBody(bar.close, brickSize)
    {
      firstTick := false;
      var rounded := GetClosestMultiple(bar.close, brickSize);
      ClosestMultipleIsNearest(bar.close, brickSize);
      openOn, closeOn := Some(bar.time), Some(bar.time);
      openRate, highRate, lowRate, closeRate := rounded, rounded, rounded, rounded;
    }

    method TakeClose(bar: InputBar)
      requires Valid() && !firstTick
      modifies this`pending, this`openRate, this`closeRate, this`highRate, this`lowRate
      modifies this`openOn, this`closeOn, this`lastBrickOpen, this`lastBrickDirection
      ensures Valid() && closeOn == Some(bar.time)
      ensures var (after, bricks) := Feed(brickSize, old(Body()), bar.close);
              Body() == after
              && pending == old(pending) + BarsOf(bricks, bar.symbol, venue, old(openOn).value, bar.time)
              && openOn == (if bricks == [] then old(openOn) else Some(bar.time))
    {
      var rate := bar.close;
      FeedSettles(brickSize, Body(), rate);
      FeedChains(brickSize, Body(), rate);
      closeOn := Some(bar.time);
      if rate > highRate { highRate := rate; }
      if rate < lowRate { lowRate := rate; }
      closeRate := rate;
      assert Body() == Touched(old(Body()), rate);
      if closeRate > openRate {
        MoveUp(bar.time, bar.symbol);
      } else if closeRate < openRate {
        MoveDown(bar.time, bar.symbol);
      }
    }

    /** Hand out the oldest pending brick, if any; the rest wait in order. */
    method Update(bar: InputBar) returns (r: Option<TradeBar>)
      requires Valid()
      modifies this
      ensures Valid() && !firstTick && closeOn == Some(bar.time)
      ensures venue == if old(venue).Some? then old(venue) else bar.venue
      ensures symbol == if old(symbol).Some? then old(symbol) else Some(bar.symbol)
      ensures old(firstTick) ==>
                r == None && pending == [] && Body() == FirstBody(bar.close, brickSize) && openOn == Some(bar.time)
      ensures !old(firstTick) ==>
                var (after, bricks) := Feed(brickSize, old(Body()), bar.close);
                && Body() == after
                && Handed(r) + pending == old(pending) + BarsOf(bricks, bar.symbol, venue, old(openOn).value, bar.time)
                && openOn == (if bricks == [] then old(openOn) else Some(bar.time))
      ensures r == None ==> pending == []
    {
      if symbol.None? { symbol := Some(bar.symbol); }
      if venue.None? { venue := bar.venue; }
      if firstTick {
        TakeFirstTick(bar);
        return None;
      }
      TakeClose(bar);
      r := Pop();
    }

    method Pop() returns (r: Option<TradeBar>)
      requires Valid()
      modifies this`pending
      ensures Valid() && Handed(r) + pending == old(pending) && (r == None ==> pending == [])
    {
      if pending == [] {
        r := None;
      } else {
        r := Some(pending[0]);
        pending := pending[1..];
      }
    }

    method DrainPending() returns (drained: seq<TradeBar>)
      requires Valid()
      modifies this`pending
      ensures Valid() && drained == old(pending) && pending == []
    {
      drained := pending;
      pending := [];
    }

    method Reset()
      requires Valid()
      modifies this
      ensures Valid() && firstTick && pending == [] && symbol == None && venue == None
    {
      firstTick, openOn, closeOn := true, None, None;
      openRate, closeRate, highRate, lowRate := 0.0, 0.0, 0.0, 0.0;
      lastBrickOpen, lastBrickDirection, symbol, venue, pending := None, None, None, None, [];
    }
  }

  function Handed(r: Option<TradeBar>): seq<TradeBar> {
    match r case Some(bar) => [bar] case None => []
  }

  function ShapeOf(bar: TradeBar): Brick { Brick(bar.open, bar.close, bar.low, bar.high) }

  function ShapesOf(bars: seq<TradeBar>): (r: seq<Brick>)
    ensures |r| == |bars| && forall i :: 0 <= i < |r| ==> r[i] == ShapeOf(bars[i])
  {
    seq(|bars|, i requires 0 <= i < |bars| => ShapeOf(bars[i]))
  }

  function ClosesOf(bars: seq<InputBar>): (r: seq<real>)
    ensures |r| == |bars| && forall i :: 0 <= i < |r| ==> r[i] == bars[i].close
  {
    seq(|bars|, i requires 0 <= i < |bars| => bars[i].close)
  }

  lemma ShapesOfBars(bricks: seq<Brick>, symbol: nat, venue: Option<nat>, openOn: int, now: int)
    ensures ShapesOf(BarsOf(bricks, symbol, venue, openOn, now)) == bricks
  {
  }

  lemma ShapesConcat(a: seq<TradeBar>, b: seq<TradeBar>)
    ensures ShapesOf(a + b) == ShapesOf(a) + ShapesOf(b)
  {
  }

  // ---- The times of the bars ----

  /** The bar begins where the one before it ended, the first at `start`; it ends at an input's time and is of its
      symbol. */
  ghost predicate AbutsAt(bars: seq<TradeBar>, start: int, stamps: seq<(int, nat)>, i: int)
    requires 0 <= i < |bars|
  {
    && bars[i].time == (if i == 0 then start else bars[i - 1].endTime)
    && (bars[i].endTime, bars[i].symbol) in stamps && bars[i].volume == 0.0
    && bars[i].period == if bars[i].endTime < bars[i].time then 0 else bars[i].endTime - bars[i].time
  }

  ghost predicate Abut(bars: seq<TradeBar>, start: int, stamps: seq<(int, nat)>) {
    forall i :: 0 <= i < |bars| ==> AbutsAt(bars, start, stamps, i)
  }

  function StampsOf(bars: seq<InputBar>): (r: seq<(int, nat)>)
    ensures |r| == |bars| && forall i :: 0 <= i < |r| ==> r[i] == (bars[i].time, bars[i].symbol)
  {
    seq(|bars|, i requires 0 <= i < |bars| => (bars[i].time, bars[i].symbol))
  }

  /** Where the next bar will begin. */
  function EndOf(bars: seq<TradeBar>, start: int): int {
    if bars == [] then start else bars[|bars| - 1].endTime
  }

  lemma MoreAbut(bars: seq<TradeBar>, start: int, stamps: seq<(int, nat)>, bricks: seq<Brick>, symbol: nat,
                 venue: Option<nat>, now: int)
    requires Abut(bars, start, stamps)
    ensures var all := bars + BarsOf(bricks, symbol, venue, EndOf(bars, start), now);
            && Abut(all, start, stamps + [(now, symbol)])
            && EndOf(all, start) == if bricks == [] then EndOf(bars, start) else now
  {
    var more := BarsOf(bricks, symbol, venue, EndOf(bars, start), now);
    var all := bars + more;
    forall i | 0 <= i < |all| ensures AbutsAt(all, start, stamps + [(now, symbol)], i) {
      if i < |bars| {
        assert AbutsAt(bars, start, stamps, i);
      } else {
        assert all[i] == more[i - |bars|];
        assert i > |bars| ==> all[i - 1] == more[i - |bars| - 1];
      }
    }
  }

  /** One bar, and optionally a drain: nothing is lost and nothing overtakes. */
  method Next(c: RenkoConsolidator, bar: InputBar, drain: bool) returns (handed: seq<TradeBar>)
    requires c.Valid() && !c.firstTick
    modifies c
    ensures c.Valid() && !c.firstTick
    ensures c.Body() == Feed(c.brickSize, old(c.Body()), bar.close).0
    ensures var bricks := Feed(c.brickSize, old(c.Body()), bar.close).1;
            && handed + c.pending
               == old(c.pending) + BarsOf(bricks, bar.symbol, c.venue, old(c.openOn).value, bar.time)
            && c.openOn == if bricks == [] then old(c.openOn) else Some(bar.time)
  {
    var r := c.Update(bar);
    handed := Handed(r);
    if drain {
      var rest := c.DrainPending();
      handed := handed + rest;
      assert handed + [] == handed;
    }
  }

  lemma OneMoreClose(size: real, first: Body, xs: seq<real>, rate: real)
    requires size > 0.0
    ensures var (body, bricks) := FeedAll(size, first, xs);
            FeedAll(size, first, xs + [rate]) == (Feed(size, body, rate).0, bricks + Feed(size, body, rate).1)
  {
    FeedAllConcat(size, first, xs, [rate]);
    OneFeed(size, FeedAll(size, first, xs).0, rate);
  }

  ghost predicate EmitsShapes(size: real, bars: seq<InputBar>, n: nat, body: Body, out: seq<TradeBar>)
    requires size > 0.0 && 0 < n <= |bars|
  {
    (body, ShapesOf(out)) == FeedAll(size, FirstBody(bars[0].close, size), ClosesOf(bars)[1..n])
  }

  ghost predicate EmitsTimes(bars: seq<InputBar>, n: nat, out: seq<TradeBar>, openOn: Option<int>)
    requires 0 < n <= |bars|
  {
    Abut(out, bars[0].time, StampsOf(bars[..n])) && openOn == Some(EndOf(out, bars[0].time))
  }

  /** After `n` inputs, the bars so far are the bricks emitted, with their times. */
  ghost predicate Emits(size: real, bars: seq<InputBar>, n: nat, body: Body, out: seq<TradeBar>, openOn: Option<int>)
    requires size > 0.0 && 0 < n <= |bars|
  {
    EmitsShapes(size, bars, n, body, out) && EmitsTimes(bars, n, out, openOn)
  }

  /** ...and they are what has been handed out and what is pending. */
  ghost predicate Consumed(c: RenkoConsolidator, bars: seq<InputBar>, n: nat, handed: seq<TradeBar>)
    reads c
    requires 0 < n <= |bars|
  {
    c.Valid() && !c.firstTick && Emits(c.brickSize, bars, n, c.Body(), handed + c.pending, c.openOn)
  }

  lemma MoreShapes(size: real, bars: seq<InputBar>, n: nat, body: Body, out: seq<TradeBar>, added: seq<TradeBar>)
    requires size > 0.0 && 0 < n < |bars| && EmitsShapes(size, bars, n, body, out)
    requires ShapesOf(added) == Feed(size, body, bars[n].close).1
    ensures EmitsShapes(size, bars, n + 1, Feed(size, body, bars[n].close).0, out + added)
  {
    var closes := ClosesOf(bars);
    OneMoreClose(size, FirstBody(bars[0].close, size), closes[1..n], closes[n]);
    assert closes[1..n + 1] == closes[1..n] + [closes[n]];
    ShapesConcat(out, added);
  }

  lemma MoreTimes(bars: seq<InputBar>, n: nat, out: seq<TradeBar>, openOn: Option<int>, bricks: seq<Brick>,
                  venue: Option<nat>)
    requires 0 < n < |bars| && EmitsTimes(bars, n, out, openOn)
    ensures EmitsTimes(bars, n + 1, out + BarsOf(bricks, bars[n].symbol, venue, openOn.value, bars[n].time),
                       if bricks == [] then openOn else Some(bars[n].time))
  {
    MoreAbut(out, bars[0].time, StampsOf(bars[..n]), bricks, bars[n].symbol, venue, bars[n].time);
    assert StampsOf(bars[..n + 1]) == StampsOf(bars[..n]) + [(bars[n].time, bars[n].symbol)];
  }

  /** One update emits the bars of its bricks. */
  lemma EmitsNext(size: real, bars: seq<InputBar>, n: nat, body: Body, out: seq<TradeBar>, openOn: Option<int>,
                  venue: Option<nat>)
    requires size > 0.0 && 0 < n < |bars| && Emits(size, bars, n, body, out, openOn)
    ensures var (after, bricks) := Feed(size, body, bars[n].close);
            Emits(size, bars, n + 1, after, out + BarsOf(bricks, bars[n].symbol, venue, openOn.value, bars[n].time),
                  if bricks == [] then openOn else Some(bars[n].time))
  {
    var bricks := Feed(size, body, bars[n].close).1;
    ShapesOfBars(bricks, bars[n].symbol, venue, openOn.value, bars[n].time);
    MoreShapes(size, bars, n, body, out, BarsOf(bricks, bars[n].symbol, venue, openOn.value, bars[n].time));
    MoreTimes(bars, n, out, openOn, bricks, venue);
  }

  method ConsumeNext(c: RenkoConsolidator, bars: seq<InputBar>, n: nat, drain: bool, handed: seq<TradeBar>)
    returns (all: seq<TradeBar>)
    requires 0 < n < |bars| && Consumed(c, bars, n, handed)
    modifies c
    ensures Consumed(c, bars, n + 1, all)
  {
    ghost var body, queue, openOn := c.Body(), c.pending, c.openOn;
    var more := Next(c, bars[n], drain);
    all := handed + more;
    EmitsNext(c.brickSize, bars, n, body, handed + queue, openOn, c.venue);
    assert all + c.pending == handed + (more + c.pending);
    assert all + c.pending == (handed + queue)
        + BarsOf(Feed(c.brickSize, body, bars[n].close).1, bars[n].symbol, c.venue, openOn.value, bars[n].time);
  }

  /** Whether callers drain the queue after an update or leave it, what a run hands out plus what it
      leaves pending is the emitted sequence, in order and without loss, each bar beginning where the one
      before it ended and ending at an update. */
  method Consume(c: RenkoConsolidator, bars: seq<InputBar>, drain: seq<bool>) returns (handed: seq<TradeBar>)
    requires c.Valid() && c.firstTick && bars != [] && |drain| == |bars|
    modifies c
    ensures c.Valid()
    ensures ShapesOf(handed + c.pending) == Consolidated(c.brickSize, ClosesOf(bars)).1
    ensures c.Body() == Consolidated(c.brickSize, ClosesOf(bars)).0
    ensures Abut(handed + c.pending, bars[0].time, StampsOf(bars))
  {
    var _ := c.Update(bars[0]);
    handed := [];
    for i := 1 to |bars|
      invariant Consumed(c, bars, i, handed)
    {
      handed := ConsumeNext(c, bars, i, drain[i], handed);
    }
    assert ClosesOf(bars)[1..|bars|] == ClosesOf(bars)[1..];
    assert bars[..|bars|] == bars;
  }
}
