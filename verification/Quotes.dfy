/** Quote bars folded from raw quote updates: what one pass over the stream yields. */
module Quotes {
  import opened Results
  import opened Coverage
  import opened OrderedKeys

  type Period = p: int | p > 0 witness 1

  datatype Window = Window(start: int, end: int)

  /** How a timestamp finds its bar: by a fixed period, or by the session of its trading day. */
  datatype Bucketing = Fixed(period: Period) | Sessions(session: int -> Option<Window>) {
    function WindowOf(t: int): Option<Window> {
      match this
      case Fixed(period) => Some(Window(t / period * period, t / period * period + period))
      case Sessions(session) =>
        var bounds := session(t);
        if bounds.None? || t < bounds.value.start || t > bounds.value.end then None else bounds
    }
  }

  datatype Quote = Quote(timestamp: int, bidPrice: Option<real>, askPrice: Option<real>,
                         bidSize: Option<real>, askSize: Option<real>) {
    function Bid(): Option<real> { Positive(bidPrice) }
    function Ask(): Option<real> { Positive(askPrice) }
  }

  function Positive(price: Option<real>): Option<real> {
    if price.Some? && price.value > 0.0 then price else None
  }

  datatype Bar = Bar(open: real, high: real, low: real, close: real) {
    function Updated(price: real): Bar {
      Bar(open, if price > high then price else high, if price < low then price else low, price)
    }
  }

  function FromPrice(price: real): Bar { Bar(price, price, price, price) }

  /** One side of the accumulator after a quote that may lack that side. */
  function Side(side: Option<Bar>, price: Option<real>): Option<Bar> {
    if price.None? then side
    else Some(if side.Some? then side.value.Updated(price.value) else FromPrice(price.value))
  }

  function Latest<T>(before: Option<T>, now: Option<T>): Option<T> {
    if now.Some? then now else before
  }

  datatype Accumulated = Accumulated(start: int, end: int, bid: Option<Bar>, ask: Option<Bar>,
                                     bidSize: Option<real>, askSize: Option<real>) {
    function Updated(q: Quote): Accumulated {
      Accumulated(start, end, Side(bid, q.Bid()), Side(ask, q.Ask()), Latest(bidSize, q.bidSize),
          Latest(askSize, q.askSize))
    }
  }

  function Begun(w: Window, q: Quote): Accumulated {
    Accumulated(w.start, w.end, None, None, None, None).Updated(q)
  }

  // ---- One pass over a stream ----

  /** The window a quote counts towards, unless it is out of range, off session or unpriced. */
  function Placed(b: Bucketing, range: TimeRange, q: Quote): Option<Window> {
    if !range.Has(q.timestamp) || (q.Bid().None? && q.Ask().None?) then None else b.WindowOf(q.timestamp)
  }

  function Lookup<V>(m: map<int, V>, key: int): Option<V> {
    if key in m then Some(m[key]) else None
  }

  function Folded(before: Option<Accumulated>, w: Window, q: Quote): Accumulated {
    if before.Some? then before.value.Updated(q) else Begun(w, q)
  }

  /** The entry of a quote's window, begun or updated. */
  function Added(b: Bucketing, range: TimeRange, q: Quote, m: map<int, Accumulated>): map<int, Accumulated> {
    match Placed(b, range, q)
    case None => m
    case Some(w) => m[w.start := Folded(Lookup(m, w.start), w, q)]
  }

  function Accumulate(b: Bucketing, range: TimeRange, quotes: seq<Quote>,
                      m: map<int, Accumulated>): map<int, Accumulated>
    decreases |quotes|
  {
    if quotes == [] then m
    else Added(b, range, quotes[|quotes| - 1], Accumulate(b, range, quotes[..|quotes| - 1], m))
  }

  /** The quotes of one bar, folded on their own. */
  function AtKey(b: Bucketing, range: TimeRange, key: int, quotes: seq<Quote>): Option<Accumulated>
    decreases |quotes|
  {
    if quotes == [] then None else
      var q := quotes[|quotes| - 1];
      var before := AtKey(b, range, key, quotes[..|quotes| - 1]);
      match Placed(b, range, q)
      case None => before
      case Some(w) => if w.start == key then Some(Folded(before, w, q)) else before
  }

  /** Bars do not see each other's quotes. */
  lemma {:induction false} AccumulateAtKey(b: Bucketing, range: TimeRange, quotes: seq<Quote>, key: int)
    ensures Lookup(Accumulate(b, range, quotes, map[]), key) == AtKey(b, range, key, quotes)
    decreases |quotes|
  {
    if quotes != [] {
      AccumulateAtKey(b, range, quotes[..|quotes| - 1], key);
    }
  }

  lemma {:induction false} AccumulateSplits(b: Bucketing, range: TimeRange, first: seq<Quote>, second: seq<Quote>,
                                            m: map<int, Accumulated>)
    ensures Accumulate(b, range, first + second, m) == Accumulate(b, range, second, Accumulate(b, range, first, m))
    decreases |second|
  {
    if second == [] {
      assert first + second == first;
    } else {
      var most := second[..|second| - 1];
      assert (first + second)[..|first + second| - 1] == first + most;
      AccumulateSplits(b, range, first, most, m);
    }
  }

  /** The prices of one side that count towards a bar, in stream order. */
  function Prices(b: Bucketing, range: TimeRange, key: int, quotes: seq<Quote>, asks: bool): seq<real>
    decreases |quotes|
  {
    if quotes == [] then [] else
      var q := quotes[|quotes| - 1];
      var before := Prices(b, range, key, quotes[..|quotes| - 1], asks);
      var w, price := Placed(b, range, q), if asks then q.Ask() else q.Bid();
      if w.Some? && w.value.start == key && price.Some? then before + [price.value] else before
  }

  /** First, largest, smallest and last of the prices; no bar when there are none. */
  ghost predicate Summarizes(side: Option<Bar>, prices: seq<real>) {
    if prices == [] then side.None? else
      && side.Some? && side.value.open == prices[0] && side.value.close == prices[|prices| - 1]
      && side.value.high in prices && side.value.low in prices
      && forall i :: 0 <= i < |prices| ==> side.value.low <= prices[i] <= side.value.high
  }

  lemma OneMorePrice(side: Option<Bar>, prices: seq<real>, price: real)
    requires Summarizes(side, prices)
    ensures Summarizes(Side(side, Some(price)), prices + [price])
  {
  }

  function SideOf(a: Option<Accumulated>, asks: bool): Option<Bar> {
    if a.None? then None else if asks then a.value.ask else a.value.bid
  }

  /** Either side of an accumulator summarizes the prices that count towards it. */
  lemma {:induction false} AtKeySummarizes(b: Bucketing, range: TimeRange, key: int, quotes: seq<Quote>, asks: bool)
    ensures Summarizes(SideOf(AtKey(b, range, key, quotes), asks), Prices(b, range, key, quotes, asks))
    decreases |quotes|
  {
    if quotes != [] {
      var q, most := quotes[|quotes| - 1], quotes[..|quotes| - 1];
      AtKeySummarizes(b, range, key, most, asks);
      var price := if asks then q.Ask() else q.Bid();
      if price.Some? {
        OneMorePrice(SideOf(AtKey(b, range, key, most), asks), Prices(b, range, key, most, asks), price.value);
      }
    }
  }

  // ---- The bars handed out ----

  datatype QuoteBar = QuoteBar(time: int, endTime: int, bid: Option<Bar>, ask: Option<Bar>,
                               lastBidSize: real, lastAskSize: real, period: int)

  function OrZero(x: Option<real>): real { if x.Some? then x.value else 0.0 }

  function BarOf(a: Accumulated): QuoteBar {
    QuoteBar(a.start, a.end, a.bid, a.ask, OrZero(a.bidSize), OrZero(a.askSize), a.end - a.start)
  }

  predicate Kept(range: TimeRange, a: Accumulated) { range.start < a.end <= range.end }

  ghost predicate Yields(range: TimeRange, m: map<int, Accumulated>, key: int, bar: QuoteBar) {
    key in m && Kept(range, m[key]) && bar == BarOf(m[key])
  }

  /** The accumulators of the listed keys whose windows end inside the range, as bars. */
  function Emitted(range: TimeRange, m: map<int, Accumulated>, keys: seq<int>): seq<QuoteBar> {
    if keys == [] then [] else
      var key := keys[|keys| - 1];
      Emitted(range, m, keys[..|keys| - 1]) + if key in m && Kept(range, m[key]) then [BarOf(m[key])] else []
  }

  /** `bars` are the kept accumulators of `m`, in time order. */
  ghost predicate AreBarsOf(range: TimeRange, m: map<int, Accumulated>, bars: seq<QuoteBar>) {
    exists keys :: Lists(keys, m.Keys) && bars == Emitted(range, m, keys)
  }

  ghost predicate InTimeOrder(bars: seq<QuoteBar>) {
    forall i, j :: 0 <= i < j < |bars| ==> bars[i].time < bars[j].time
  }

  /** The bars are those of the accumulators whose window ends inside the range, and no others. */
  ghost predicate ExactlyKept(range: TimeRange, m: map<int, Accumulated>, bars: seq<QuoteBar>) {
    forall bar :: bar in bars <==> exists key :: Yields(range, m, key, bar)
  }

  /** Each accumulator is filed under the start of its window. */
  ghost predicate FiledByStart(m: map<int, Accumulated>) {
    forall key :: key in m ==> m[key].start == key
  }

  lemma {:induction false} AccumulateFilesByStart(b: Bucketing, range: TimeRange, quotes: seq<Quote>)
    ensures FiledByStart(Accumulate(b, range, quotes, map[]))
    decreases |quotes|
  {
    if quotes != [] {
      AccumulateFilesByStart(b, range, quotes[..|quotes| - 1]);
      FoldKeepsStart(b, range, quotes[|quotes| - 1], Accumulate(b, range, quotes[..|quotes| - 1], map[]));
    }
  }

  lemma FoldKeepsStart(b: Bucketing, range: TimeRange, q: Quote, m: map<int, Accumulated>)
    requires FiledByStart(m)
    ensures Placed(b, range, q).Some? ==>
              var w := Placed(b, range, q).value; Folded(Lookup(m, w.start), w, q).start == w.start
  {
  }

  /** The bars of a map are determined by it. */
  lemma BarsAreDetermined(range: TimeRange, m: map<int, Accumulated>, bars: seq<QuoteBar>, same: seq<QuoteBar>)
    requires AreBarsOf(range, m, bars) && AreBarsOf(range, m, same)
    ensures same == bars
  {
    var keys :| Lists(keys, m.Keys) && bars == Emitted(range, m, keys);
    var others :| Lists(others, m.Keys) && same == Emitted(range, m, others);
    ListingIsUnique(keys, others, m.Keys);
  }

  /** The bars of a map are in time order, and are exactly its kept entries. */
  lemma BarsOfMap(range: TimeRange, m: map<int, Accumulated>, bars: seq<QuoteBar>)
    requires FiledByStart(m) && AreBarsOf(range, m, bars)
    ensures InTimeOrder(bars) && ExactlyKept(range, m, bars)
  {
    var keys :| Lists(keys, m.Keys) && bars == Emitted(range, m, keys);
    EmittedInOrder(range, m, keys);
    forall bar ensures bar in bars <==> exists key :: Yields(range, m, key, bar) {
      EmittedYields(range, m, keys, bar);
    }
  }

  lemma {:induction false} EmittedYields(range: TimeRange, m: map<int, Accumulated>, keys: seq<int>, bar: QuoteBar)
    ensures bar in Emitted(range, m, keys) <==> exists key :: key in keys && Yields(range, m, key, bar)
    decreases |keys|
  {
    if keys != [] {
      var most, last := keys[..|keys| - 1], keys[|keys| - 1];
      EmittedYields(range, m, most, bar);
      assert keys == most + [last];
      assert Yields(range, m, last, bar) || !Yields(range, m, last, bar);
    }
  }

  lemma {:induction false} EmittedInOrder(range: TimeRange, m: map<int, Accumulated>, keys: seq<int>)
    requires FiledByStart(m) && Ascending(keys)
    ensures InTimeOrder(Emitted(range, m, keys))
    decreases |keys|
  {
    if keys != [] {
      var most := keys[..|keys| - 1];
      EmittedInOrder(range, m, most);
      var before := Emitted(range, m, most);
      forall i | 0 <= i < |before| ensures before[i].time < keys[|keys| - 1] {
        EmittedYields(range, m, most, before[i]);
        var key :| key in most && Yields(range, m, key, before[i]);
        assert key in most && key < keys[|keys| - 1];
      }
    }
  }
}
