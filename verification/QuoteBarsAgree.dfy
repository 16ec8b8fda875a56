/** The bars a sharded request hands out, compared with those of one pass: exactly when they are the same. */
module QuoteBarsAgree {
  import opened Results
  import opened Coverage
  import opened OrderedKeys
  import opened Quotes
  import opened QuoteShards

  predicate KeptWindow(range: TimeRange, w: Window) { range.start < w.end <= range.end }

  /** No two UTC days of the range share a bar that is handed out. */
  ghost predicate KeptDayLocal(b: Bucketing, range: TimeRange) {
    forall t, u :: SameBar(b, t, u) && range.Has(t) && range.Has(u) && KeptWindow(range, b.WindowOf(t).value) ==>
      DayOf(t) == DayOf(u)
  }

  /** The same keys, and at each the same accumulator unless neither is handed out. */
  ghost predicate AgreeAt(range: TimeRange, a: Option<Accumulated>, b: Option<Accumulated>) {
    a == b || (a.Some? && b.Some? && !Kept(range, a.value) && !Kept(range, b.value))
  }

  lemma {:induction false} EmittedAgree(range: TimeRange, m: map<int, Accumulated>, n: map<int, Accumulated>,
                                        keys: seq<int>)
    requires forall key :: AgreeAt(range, Lookup(m, key), Lookup(n, key))
    ensures Emitted(range, m, keys) == Emitted(range, n, keys)
    decreases |keys|
  {
    if keys != [] {
      assert AgreeAt(range, Lookup(m, keys[|keys| - 1]), Lookup(n, keys[|keys| - 1]));
      EmittedAgree(range, m, n, keys[..|keys| - 1]);
    }
  }

  lemma AgreeingMapsHandOutTheSame(range: TimeRange, m: map<int, Accumulated>, n: map<int, Accumulated>,
                                   bars: seq<QuoteBar>)
    requires forall key :: AgreeAt(range, Lookup(m, key), Lookup(n, key))
    requires AreBarsOf(range, m, bars)
    ensures AreBarsOf(range, n, bars)
  {
    var keys :| Lists(keys, m.Keys) && bars == Emitted(range, m, keys);
    EmittedAgree(range, m, n, keys);
    forall key ensures key in m.Keys <==> key in n.Keys {
      assert AgreeAt(range, Lookup(m, key), Lookup(n, key));
    }
    assert m.Keys == n.Keys;
  }

  /** An accumulator ends where the window of some counted quote does. */
  lemma {:induction false} NoneKept(b: Bucketing, range: TimeRange, shard: TimeRange, key: int, quotes: seq<Quote>)
    requires forall q :: q in quotes && Counts(b, shard, key, q) ==> !KeptWindow(range, Placed(b, shard, q).value)
    ensures var a := AtKey(b, shard, key, quotes);
            && (a.Some? ==> !Kept(range, a.value))
            && (a.Some? <==> exists q :: q in quotes && Counts(b, shard, key, q))
    decreases |quotes|
  {
    if quotes != [] {
      var q, most := quotes[|quotes| - 1], quotes[..|quotes| - 1];
      assert quotes == most + [q] && q in quotes;
      NoneKept(b, range, shard, key, most);
      assert Counts(b, shard, key, q) || !Counts(b, shard, key, q);
    }
  }

  /** A bar shared by two days of the range is not handed out, by the merge or by one pass. */
  lemma SharedBarAgrees(b: Bucketing, range: TimeRange, stream: seq<Quote>, completed: seq<Shard>, key: int, p: Quote,
                        q: Quote)
    requires KeptDayLocal(b, range) && Serves(completed, stream) && CompletesInAnyOrder(completed, range)
    requires p in stream && q in stream && Counts(b, range, key, p) && Counts(b, range, key, q)
    requires DayOf(p.timestamp) != DayOf(q.timestamp)
    ensures AgreeAt(range, Lookup(Merged(b, completed), key), AtKey(b, range, key, stream))
  {
    forall o | o in stream && Counts(b, range, key, o) ensures !KeptWindow(range, Placed(b, range, o).value) {
      var other := if DayOf(o.timestamp) == DayOf(p.timestamp) then q else p;
      assert SameBar(b, o.timestamp, other.timestamp);
    }
    NoneKept(b, range, range, key, stream);
    forall i | 0 <= i < |completed| ensures NotKeptThere(b, range, completed[i].range, key, stream) {
      ShardSharesNothingKept(b, range, completed[i].range, key, stream);
    }
    MergedComesFromShard(b, completed, stream, key);
    var home := ShardOf(range, p.timestamp);
    var i :| 0 <= i < |completed| && completed[i].range == home;
    assert Counts(b, home, key, p);
    assert NotKeptThere(b, range, completed[i].range, key, stream);
  }

  /** The shard's accumulator is not handed out; it is there when the shard has a quote of the bar. */
  ghost predicate NotKeptThere(b: Bucketing, range: TimeRange, shard: TimeRange, key: int, stream: seq<Quote>) {
    var a := AtKey(b, shard, key, stream);
    (a.Some? ==> !Kept(range, a.value)) && (a.Some? <==> exists q :: q in stream && Counts(b, shard, key, q))
  }

  lemma ShardSharesNothingKept(b: Bucketing, range: TimeRange, shard: TimeRange, key: int, stream: seq<Quote>)
    requires shard in DaySplit(range)
    requires forall o :: o in stream && Counts(b, range, key, o) ==> !KeptWindow(range, Placed(b, range, o).value)
    ensures NotKeptThere(b, range, shard, key, stream)
  {
    forall o | o in stream && Counts(b, shard, key, o) ensures !KeptWindow(range, Placed(b, shard, o).value) {
      ShardHas(range, shard, o.timestamp);
      assert Counts(b, range, key, o);
    }
    NoneKept(b, range, shard, key, stream);
  }

  lemma MergeAgrees(b: Bucketing, range: TimeRange, stream: seq<Quote>, completed: seq<Shard>, key: int)
    requires KeptDayLocal(b, range) && Serves(completed, stream) && CompletesInAnyOrder(completed, range)
    ensures AgreeAt(range, Lookup(Merged(b, completed), key), AtKey(b, range, key, stream))
  {
    if OneDay(b, range, key, stream) {
      MergeAgreesAt(b, range, stream, completed, key);
    } else {
      var p, q :| p in stream && q in stream && Counts(b, range, key, p) && Counts(b, range, key, q)
                  && DayOf(p.timestamp) != DayOf(q.timestamp);
      SharedBarAgrees(b, range, stream, completed, key, p, q);
    }
  }

  // ---- Exactly when the bars are the same ----

  /** For every stream, paging and completion order, the bars of the merge are the bars of one pass. */
  ghost predicate AlwaysSameBars(b: Bucketing, range: TimeRange) {
    forall stream, completed, bars :: Serves(completed, stream) && CompletesInAnyOrder(completed, range)
                                      && AreBarsOf(range, Merged(b, completed), bars) ==>
      AreBarsOf(range, Accumulate(b, range, stream, map[]), bars)
  }

  lemma SameBars(b: Bucketing, range: TimeRange, stream: seq<Quote>, completed: seq<Shard>, bars: seq<QuoteBar>)
    requires KeptDayLocal(b, range) && Serves(completed, stream) && CompletesInAnyOrder(completed, range)
    requires AreBarsOf(range, Merged(b, completed), bars)
    ensures AreBarsOf(range, Accumulate(b, range, stream, map[]), bars)
  {
    var merged, once := Merged(b, completed), Accumulate(b, range, stream, map[]);
    forall key ensures AgreeAt(range, Lookup(merged, key), Lookup(once, key)) {
      MergeAgrees(b, range, stream, completed, key);
      AccumulateAtKey(b, range, stream, key);
    }
    AgreeingMapsHandOutTheSame(range, merged, once, bars);
  }

  /** The shards' accumulators are filed by the start of their windows, and so are the merged ones. */
  lemma {:induction false} MergedFilesByStart(b: Bucketing, completed: seq<Shard>)
    requires AllFetched(completed)
    ensures FiledByStart(Merged(b, completed))
    decreases |completed|
  {
    if completed != [] {
      var last := completed[|completed| - 1];
      MergedFilesByStart(b, completed[..|completed| - 1]);
      AccumulateFilesByStart(b, last.range, Flatten(last.answer.pages));
    }
  }

  lemma BarIsThere(range: TimeRange, m: map<int, Accumulated>, key: int, bars: seq<QuoteBar>)
    requires FiledByStart(m) && AreBarsOf(range, m, bars) && key in m && Kept(range, m[key])
    ensures BarOf(m[key]) in bars
  {
    BarsOfMap(range, m, bars);
    assert Yields(range, m, key, BarOf(m[key]));
  }

  /** No bar handed out shows a bid that opens and closes apart, if the accumulator of that start has none. */
  lemma BarIsNotThere(range: TimeRange, m: map<int, Accumulated>, a: Accumulated, bars: seq<QuoteBar>)
    requires FiledByStart(m) && AreBarsOf(range, m, bars)
    requires SpansBoth(Some(a)) && !SpansBoth(Lookup(m, a.start))
    ensures BarOf(a) !in bars
  {
    BarsOfMap(range, m, bars);
    forall key ensures !Yields(range, m, key, BarOf(a)) {
      assert key in m && BarOf(a) == BarOf(m[key]) ==> key == a.start;
    }
  }

  /** A bar handed out that spans both bids is not among the merged bars. */
  lemma SharedBarIsCut(b: Bucketing, range: TimeRange, t: int, u: int, completed: seq<Shard>, bars: seq<QuoteBar>)
    requires SameBar(b, t, u) && range.Has(t) && range.Has(u) && DayOf(t) != DayOf(u)
             && KeptWindow(range, b.WindowOf(t).value)
    requires Serves(completed, TwoBids(t, u)) && CompletesInAnyOrder(completed, range)
    requires AreBarsOf(range, Merged(b, completed), bars)
    ensures !AreBarsOf(range, Accumulate(b, range, TwoBids(t, u), map[]), bars)
  {
    var stream, key := TwoBids(t, u), b.WindowOf(t).value.start;
    var once := Accumulate(b, range, stream, map[]);
    StraddlingBarDiffers(b, t, u, range, completed);
    TwoBidsSpan(b, range, t, u);
    AccumulateAtKey(b, range, stream, key);
    MergedFilesByStart(b, completed);
    AccumulateFilesByStart(b, range, stream);
    BarIsNotThere(range, Merged(b, completed), once[key], bars);
    if AreBarsOf(range, once, bars) {
      BarIsThere(range, once, key, bars);
    }
  }

  /** For every stream, paging and completion order, the request hands out the bars of one pass if and only if
      no two UTC days of the range share a bar that is handed out. */
  lemma SameBarsIff(b: Bucketing, range: TimeRange)
    ensures AlwaysSameBars(b, range) <==> KeptDayLocal(b, range)
  {
    if KeptDayLocal(b, range) {
      forall stream, completed, bars | Serves(completed, stream) && CompletesInAnyOrder(completed, range)
                                       && AreBarsOf(range, Merged(b, completed), bars)
        ensures AreBarsOf(range, Accumulate(b, range, stream, map[]), bars)
      {
        SameBars(b, range, stream, completed, bars);
      }
    } else {
      var t, u :| SameBar(b, t, u) && range.Has(t) && range.Has(u) && KeptWindow(range, b.WindowOf(t).value)
          && DayOf(t) != DayOf(u);
      OnePageEachServes(range, TwoBids(t, u));
      var completed := OnePageEach(DaySplit(range), TwoBids(t, u));
      var bars := Emitted(range, Merged(b, completed), Listing(Merged(b, completed).Keys));
      SharedBarIsCut(b, range, t, u, completed, bars);
    }
  }

  /** Periods that divide the day share no bar between days, whatever the range. */
  lemma DividingPeriodsAgree(period: Period, range: TimeRange)
    requires DAY % period == 0
    ensures AlwaysOnePass(Fixed(period), range) && AlwaysSameBars(Fixed(period), range)
  {
    FixedIsDayLocalIff(period);
    OnePassIff(Fixed(period), range);
    SameBarsIff(Fixed(period), range);
  }

  // ---- A session across midnight ----

  /** A session from 22:00 to 02:00 of the next UTC day. */
  const NIGHT := Window(79_200 * SECOND, 93_600 * SECOND)

  /** Over two days, a bid of 1 at 23:00 and a bid of 2 at 01:00 belong to one daily bar; whatever bars the
      shards make of them, they are not those of one pass. */
  lemma NightSessionIsCut(completed: seq<Shard>, bars: seq<QuoteBar>)
    requires var range: TimeRange := TimeRange(0, 2 * DAY);
             && Serves(completed, TwoBids(82_800 * SECOND, 90_000 * SECOND)) && CompletesInAnyOrder(completed, range)
             && AreBarsOf(range, Merged(Sessions(_ => Some(NIGHT)), completed), bars)
    ensures !AreBarsOf(TimeRange(0, 2 * DAY),
                       Accumulate(Sessions(_ => Some(NIGHT)), TimeRange(0, 2 * DAY),
                           TwoBids(82_800 * SECOND, 90_000 * SECOND), map[]), bars)
  {
    SharedBarIsCut(Sessions(_ => Some(NIGHT)), TimeRange(0, 2 * DAY), 82_800 * SECOND, 90_000 * SECOND, completed,
        bars);
  }
}
