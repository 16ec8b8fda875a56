/** The mutable accumulators of the quote feed, and the loops that fill and merge them. */
module QuoteAccumulators {
  import opened Results
  import opened Coverage
  import opened OrderedKeys
  import opened Quotes
  import opened QuoteShards
  import opened QuoteBarsAgree
  import opened QuoteContents

  class QuoteAccumulator {
    const start: int
    const end: int
    var bid: Option<Bar>
    var ask: Option<Bar>
    var bidSize: Option<real>
    var askSize: Option<real>

    ghost function State(): Accumulated
      reads this
    {
      Accumulated(start, end, bid, ask, bidSize, askSize)
    }

    constructor (w: Window, q: Quote)
      ensures State() == Begun(w, q) && start == w.start
    {
      start, end := w.start, w.end;
      bid := if q.Bid().Some? then Some(FromPrice(q.Bid().value)) else None;
      ask := if q.Ask().Some? then Some(FromPrice(q.Ask().value)) else None;
      bidSize, askSize := q.bidSize, q.askSize;
    }

    method Update(q: Quote)
      modifies this
      ensures State() == old(State()).Updated(q)
    {
      if q.Bid().Some? {
        if bid.Some? {
          bid := Some(bid.value.Updated(q.Bid().value));
        } else {
          bid := Some(FromPrice(q.Bid().value));
        }
      }
      if q.Ask().Some? {
        if ask.Some? {
          ask := Some(ask.value.Updated(q.Ask().value));
        } else {
          ask := Some(FromPrice(q.Ask().value));
        }
      }
      if q.bidSize.Some? { bidSize := q.bidSize; }
      if q.askSize.Some? { askSize := q.askSize; }
    }
  }

  type Accumulators = map<int, QuoteAccumulator>

  /** Each accumulator is filed under the start of its window, so no two entries share an object. */
  ghost predicate Filed(bars: Accumulators) {
    forall key :: key in bars ==> bars[key].start == key
  }

  ghost function View(bars: Accumulators): map<int, Accumulated>
    reads bars.Values
  {
    map key | key in bars :: bars[key].State()
  }

  /** One quote added to the bars: `entry(start).and_modify(update).or_insert_with(new)`. */
  method AddQuote(b: Bucketing, range: TimeRange, q: Quote, bars: Accumulators) returns (r: Accumulators)
    requires Filed(bars)
    modifies bars.Values
    ensures Filed(r) && fresh(r.Values - bars.Values)
    ensures View(r) == Added(b, range, q, old(View(bars)))
  {
    r := bars;
    var w := Placed(b, range, q);
    if w.Some? {
      var key := w.value.start;
      if key in bars {
        bars[key].Update(q);
      } else {
        var created := new QuoteAccumulator(w.value, q);
        r := bars[key := created];
      }
      forall other | other in bars && other != key ensures r[other].State() == old(bars[other].State()) {
        assert r[other] == bars[other] && bars[other].start == other;
      }
      assert View(r) == old(View(bars))[key := r[key].State()];
    }
  }

  method AggregateQuoteUpdates(b: Bucketing, range: TimeRange, quotes: seq<Quote>, bars: Accumulators)
    returns (r: Accumulators)
    requires Filed(bars)
    modifies bars.Values
    ensures Filed(r) && fresh(r.Values - bars.Values)
    ensures View(r) == Accumulate(b, range, quotes, old(View(bars)))
  {
    r := bars;
    for i := 0 to |quotes|
      invariant Filed(r) && fresh(r.Values - bars.Values)
      invariant View(r) == Accumulate(b, range, quotes[..i], old(View(bars)))
    {
      r := AddQuote(b, range, quotes[i], r);
      assert quotes[..i + 1][..i] == quotes[..i];
    }
    assert quotes[..|quotes|] == quotes;
  }

  /** One day, aggregated page by page. */
  method QuoteBarAccumulators(b: Bucketing, range: TimeRange, pages: seq<seq<Quote>>) returns (r: Accumulators)
    ensures Filed(r) && fresh(r.Values)
    ensures View(r) == Accumulate(b, range, Flatten(pages), map[])
  {
    r := map[];
    for i := 0 to |pages|
      invariant Filed(r) && fresh(r.Values)
      invariant View(r) == Accumulate(b, range, Flatten(pages[..i]), map[])
    {
      r := AggregateQuoteUpdates(b, range, pages[i], r);
      assert pages[..i + 1][..i] == pages[..i];
      AccumulateSplits(b, range, Flatten(pages[..i]), pages[i], map[]);
    }
    assert pages[..|pages|] == pages;
  }

  /** `into_values` of an ordered map, filtered and mapped to bars. */
  method QuoteBarsFromAccumulators(range: TimeRange, bars: Accumulators) returns (r: seq<QuoteBar>)
    ensures AreBarsOf(range, View(bars), r)
  {
    var keys := KeysInOrder(bars.Keys);
    r := [];
    for i := 0 to |keys|
      invariant r == Emitted(range, View(bars), keys[..i])
    {
      assert keys[i] in keys;
      var bar := bars[keys[i]];
      if range.start < bar.end <= range.end {
        r := r + [QuoteBar(bar.start, bar.end, bar.bid, bar.ask, OrZero(bar.bidSize), OrZero(bar.askSize),
            bar.end - bar.start)];
      }
      assert keys[..i + 1][..i] == keys[..i];
    }
    assert keys[..|keys|] == keys;
    assert Lists(keys, View(bars).Keys);
  }

  /** What a day that was not fetched makes of the whole request. */
  function Fault(equity: bool, answer: DayAnswer): Result<seq<QuoteBar>>
    requires !answer.Pages?
  {
    match answer
    case NotEntitled => if equity then Ok([]) else Err("not entitled")
    case Failed(message) => Err(message)
  }

  /** A day's map appended: its entries replace those already there. */
  method AppendDay(b: Bucketing, shard: Shard, bars: Accumulators) returns (r: Accumulators)
    requires Filed(bars) && shard.answer.Pages?
    ensures Filed(r) && fresh(r.Values - bars.Values)
    ensures View(r) == View(bars) + DayMap(b, shard)
  {
    var daily := QuoteBarAccumulators(b, shard.range, shard.answer.pages);
    r := bars + daily;
    assert r.Values <= bars.Values + daily.Values;
  }

  /** The day at `i` is the first that was not fetched. */
  ghost predicate FirstFault(completed: seq<Shard>, i: int) {
    0 <= i < |completed| && !completed[i].answer.Pages? && forall j :: 0 <= j < i ==> completed[j].answer.Pages?
  }

  /** `quote_bars` over the days in the order they completed; `b` is `None` at tick resolution. */
  method QuoteBars(b: Option<Bucketing>, equity: bool, range: TimeRange, completed: seq<Shard>)
    returns (r: Result<seq<QuoteBar>>)
    ensures b.None? ==> r.Err?
    ensures b.Some? && AllFetched(completed) ==> r.Ok? && AreBarsOf(range, Merged(b.value, completed), r.value)
    ensures forall i :: b.Some? && FirstFault(completed, i) ==> r == Fault(equity, completed[i].answer)
  {
    if b.None? {
      return Err("QuoteBar history requires Second or coarser resolution");
    }
    var bars: Accumulators := map[];
    for i := 0 to |completed|
      invariant Filed(bars) && fresh(bars.Values)
      invariant forall j :: 0 <= j < i ==> completed[j].answer.Pages?
      invariant View(bars) == Merged(b.value, completed[..i])
    {
      if !completed[i].answer.Pages? {
        assert FirstFault(completed, i);
        return Fault(equity, completed[i].answer);
      }
      bars := AppendDay(b.value, completed[i], bars);
      assert completed[..i + 1][..i] == completed[..i];
    }
    assert completed[..|completed|] == completed;
    var out := QuoteBarsFromAccumulators(range, bars);
    r := Ok(out);
  }

  /** The sharded request returns the bars of one pass, in time order, whatever the paging and completion
      order: exactly the accumulators whose window ends inside the range. */
  method QuoteBarsOfStream(b: Bucketing, equity: bool, range: TimeRange, completed: seq<Shard>,
                           ghost stream: seq<Quote>)
    returns (r: Result<seq<QuoteBar>>)
    requires KeptDayLocal(b, range) && Serves(completed, stream) && CompletesInAnyOrder(completed, range)
    ensures r.Ok? && AreBarsOf(range, Accumulate(b, range, stream, map[]), r.value) && InTimeOrder(r.value)
    ensures ExactlyKept(range, Accumulate(b, range, stream, map[]), r.value)
    ensures ShowAll(b, range, stream, r.value)
  {
    r := QuoteBars(Some(b), equity, range, completed);
    SameBars(b, range, stream, completed, r.value);
    AccumulateFilesByStart(b, range, stream);
    BarsOfMap(range, Accumulate(b, range, stream, map[]), r.value);
    BarsShowStream(b, range, stream, r.value);
  }
}
