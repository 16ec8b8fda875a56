/** What a quote bar shows of the stream, in terms of timestamps and prices alone. */
module QuoteContents {
  import opened Results
  import opened Coverage
  import opened Division
  import opened OrderedKeys
  import opened Quotes

  /** An instant falls in the bar from `start`: within the period from a multiple of it, or within the session
      of its trading day, both ends included. */
  ghost predicate FallsIn(b: Bucketing, start: int, t: int) {
    match b
    case Fixed(period) => start % period == 0 && start <= t < start + period
    case Sessions(session) => session(t).Some? && session(t).value.start == start && start <= t <= session(t).value.end
  }

  /** Where the bar of an instant that falls in the bar from `start` ends. */
  ghost function EndOf(b: Bucketing, start: int, t: int): int
    requires FallsIn(b, start, t)
  {
    match b
    case Fixed(period) => start + period
    case Sessions(session) => session(t).value.end
  }

  lemma OneMultiple(p: int, start: int, t: int)
    requires p > 0
    ensures start % p == 0 && start <= t < start + p <==> start == t / p * p
  {
    if start % p == 0 && start <= t < start + p {
      Spread(start / p, p);
      Quotient(t, start / p, p);
    } else if start == t / p * p {
      Spread(t / p, p);
      Quotient(start, t / p, p);
    }
  }

  lemma Spread(k: int, p: int)
    ensures (k + 1) * p == k * p + p
  {
  }

  /** The window of an instant is the bar it falls in, and there is none where it falls in no bar. */
  lemma WindowIsBar(b: Bucketing, start: int, t: int)
    ensures FallsIn(b, start, t) <==> b.WindowOf(t).Some? && b.WindowOf(t).value.start == start
    ensures FallsIn(b, start, t) ==> b.WindowOf(t) == Some(Window(start, EndOf(b, start, t)))
  {
    match b
    case Fixed(period) => OneMultiple(period, start, t);
    case Sessions(_) =>
  }

  // ---- The quotes of one bar ----

  ghost predicate Priced(price: Option<real>) { price.Some? && price.value > 0.0 }

  /** A quote of the range that falls in the bar and has a positive price on either side. */
  ghost predicate Belongs(b: Bucketing, range: TimeRange, start: int, q: Quote) {
    && range.start <= q.timestamp < range.end
    && FallsIn(b, start, q.timestamp)
    && (Priced(q.bidPrice) || Priced(q.askPrice))
  }

  /** The positive prices of one side that fall in the bar, in stream order. */
  ghost function PricesIn(b: Bucketing, range: TimeRange, start: int, quotes: seq<Quote>, asks: bool): seq<real>
    decreases |quotes|
  {
    if quotes == [] then [] else
      var q := quotes[|quotes| - 1];
      var price := if asks then q.askPrice else q.bidPrice;
      PricesIn(b, range, start, quotes[..|quotes| - 1], asks)
      + if Belongs(b, range, start, q) && Priced(price) then [price.value] else []
  }

  /** The last size one side of the bar's quotes gives, zero if none does. */
  ghost function SizeIn(b: Bucketing, range: TimeRange, start: int, quotes: seq<Quote>, asks: bool): real
    decreases |quotes|
  {
    if quotes == [] then 0.0 else
      var q := quotes[|quotes| - 1];
      var size := if asks then q.askSize else q.bidSize;
      if Belongs(b, range, start, q) && size.Some? then size.value
      else SizeIn(b, range, start, quotes[..|quotes| - 1], asks)
  }

  lemma PlacedIffBelongs(b: Bucketing, range: TimeRange, start: int, q: Quote)
    ensures Belongs(b, range, start, q) <==> Placed(b, range, q).Some? && Placed(b, range, q).value.start == start
    ensures Belongs(b, range, start, q) ==> Placed(b, range, q) == Some(Window(start, EndOf(b, start, q.timestamp)))
  {
    WindowIsBar(b, start, q.timestamp);
  }

  lemma {:induction false} PricesAreIn(b: Bucketing, range: TimeRange, start: int, quotes: seq<Quote>, asks: bool)
    ensures Prices(b, range, start, quotes, asks) == PricesIn(b, range, start, quotes, asks)
    decreases |quotes|
  {
    if quotes != [] {
      PricesAreIn(b, range, start, quotes[..|quotes| - 1], asks);
      PlacedIffBelongs(b, range, start, quotes[|quotes| - 1]);
    }
  }

  function SizeOf(a: Option<Accumulated>, asks: bool): real {
    if a.None? then 0.0 else OrZero(if asks then a.value.askSize else a.value.bidSize)
  }

  lemma {:induction false} SizesAreIn(b: Bucketing, range: TimeRange, start: int, quotes: seq<Quote>, asks: bool)
    ensures SizeOf(AtKey(b, range, start, quotes), asks) == SizeIn(b, range, start, quotes, asks)
    decreases |quotes|
  {
    if quotes != [] {
      SizesAreIn(b, range, start, quotes[..|quotes| - 1], asks);
      PlacedIffBelongs(b, range, start, quotes[|quotes| - 1]);
    }
  }

  /** The bar's window is that of some quote that belongs to it. */
  ghost predicate Ends(b: Bucketing, range: TimeRange, start: int, quotes: seq<Quote>, end: int) {
    exists q :: q in quotes && Belongs(b, range, start, q) && end == EndOf(b, start, q.timestamp)
  }

  lemma {:induction false} AtKeyEnds(b: Bucketing, range: TimeRange, start: int, quotes: seq<Quote>)
    ensures var a := AtKey(b, range, start, quotes);
            && (a.Some? <==> exists q :: q in quotes && Belongs(b, range, start, q))
            && (a.Some? ==> a.value.start == start && Ends(b, range, start, quotes, a.value.end))
    decreases |quotes|
  {
    if quotes != [] {
      var most, q := quotes[..|quotes| - 1], quotes[|quotes| - 1];
      assert quotes == most + [q];
      AtKeyEnds(b, range, start, most);
      PlacedIffBelongs(b, range, start, q);
    }
  }

  // ---- The bars handed out ----

  /** A bar shows the stream between its two times: on each side the first, largest, smallest and last positive
      price, and the last size. */
  ghost predicate Shows(b: Bucketing, range: TimeRange, stream: seq<Quote>, bar: QuoteBar) {
    && Ends(b, range, bar.time, stream, bar.endTime) && bar.period == bar.endTime - bar.time
    && Summarizes(bar.bid, PricesIn(b, range, bar.time, stream, false))
    && Summarizes(bar.ask, PricesIn(b, range, bar.time, stream, true))
    && bar.lastBidSize == SizeIn(b, range, bar.time, stream, false)
    && bar.lastAskSize == SizeIn(b, range, bar.time, stream, true)
  }

  /** Sessions that open together close together, as those of one trading day do. */
  ghost predicate OneEnd(b: Bucketing) {
    forall start, t, u :: FallsIn(b, start, t) && FallsIn(b, start, u) ==> EndOf(b, start, t) == EndOf(b, start, u)
  }

  /** The bar ends after the range starts and not after the range does. */
  ghost predicate Closes(b: Bucketing, range: TimeRange, start: int, t: int)
    requires FallsIn(b, start, t)
  {
    range.start < EndOf(b, start, t) <= range.end
  }

  /** The bars show the stream, each ends inside the range, and no priced quote whose bar ends inside the range is
      left out. */
  ghost predicate ShowAll(b: Bucketing, range: TimeRange, stream: seq<Quote>, bars: seq<QuoteBar>) {
    && (forall bar :: bar in bars ==> Shows(b, range, stream, bar) && range.start < bar.endTime <= range.end)
    && (OneEnd(b) ==>
          forall start, q :: q in stream && Belongs(b, range, start, q) && Closes(b, range, start, q.timestamp) ==>
            exists bar :: bar in bars && bar.time == start)
  }

  lemma EntryShows(b: Bucketing, range: TimeRange, stream: seq<Quote>, start: int)
    requires AtKey(b, range, start, stream).Some?
    ensures var bar := BarOf(AtKey(b, range, start, stream).value); bar.time == start && Shows(b, range, stream, bar)
  {
    AtKeyEnds(b, range, start, stream);
    AtKeySummarizes(b, range, start, stream, false);
    AtKeySummarizes(b, range, start, stream, true);
    PricesAreIn(b, range, start, stream, false);
    PricesAreIn(b, range, start, stream, true);
    SizesAreIn(b, range, start, stream, false);
    SizesAreIn(b, range, start, stream, true);
  }

  /** The kept accumulators of one pass show the whole stream. */
  lemma BarsShowStream(b: Bucketing, range: TimeRange, stream: seq<Quote>, bars: seq<QuoteBar>)
    requires ExactlyKept(range, Accumulate(b, range, stream, map[]), bars)
    ensures ShowAll(b, range, stream, bars)
  {
    var m := Accumulate(b, range, stream, map[]);
    forall bar | bar in bars ensures Shows(b, range, stream, bar) && range.start < bar.endTime <= range.end {
      var key :| Yields(range, m, key, bar);
      AccumulateAtKey(b, range, stream, key);
      EntryShows(b, range, stream, key);
    }
    forall start, q | OneEnd(b) && q in stream && Belongs(b, range, start, q) && Closes(b, range, start, q.timestamp)
      ensures exists bar :: bar in bars && bar.time == start
    {
      AccumulateAtKey(b, range, stream, start);
      AtKeyEnds(b, range, start, stream);
      assert Yields(range, m, start, BarOf(m[start]));
    }
  }

  /** Bars of a fixed period lie on its grid. */
  lemma FixedBarsLieOnGrid(period: Period, range: TimeRange, stream: seq<Quote>, bar: QuoteBar)
    requires Shows(Fixed(period), range, stream, bar)
    ensures bar.time % period == 0 && bar.endTime == bar.time + period
    ensures OneEnd(Fixed(period))
  {
  }
}
