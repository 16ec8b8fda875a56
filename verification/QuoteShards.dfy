/** Quotes fetched one UTC day at a time, each day in pages, finishing in any order. */
module QuoteShards {
  import opened Results
  import opened Coverage
  import opened Division
  import opened Quotes

  const SECOND := 1_000_000_000
  const DAY := 86_400 * SECOND

  /** `to_utc` rejects instants before the epoch that are not whole seconds. */
  predicate ToUtcDefined(t: int) { t >= 0 || t % SECOND == 0 }

  function DayOf(t: int): int { t / DAY }

  function Midnight(day: int): int { day * DAY }

  lemma DayBounds(t: int, day: int)
    ensures DayOf(t) == day <==> Midnight(day) <= t < Midnight(day + 1)
  {
  }

  function NextMidnight(t: int): (m: int)
    ensures m > t && DayOf(m) == DayOf(t) + 1 && ToUtcDefined(m)
  {
    DayBounds(t, DayOf(t));
    DayBounds(Midnight(DayOf(t) + 1), DayOf(t) + 1);
    assert Midnight(DayOf(t) + 1) == 86_400 * (DayOf(t) + 1) * SECOND;
    Midnight(DayOf(t) + 1)
  }

  function FirstShard(range: TimeRange): (s: TimeRange)
    ensures s.start == range.start && s.end <= range.end
  {
    TimeRange(range.start, if NextMidnight(range.start) < range.end then NextMidnight(range.start) else range.end)
  }

  function DaySplit(range: TimeRange): seq<TimeRange>
    decreases range.end - range.start
  {
    var first := FirstShard(range);
    if first.end == range.end then [first] else [first] + DaySplit(TimeRange(first.end, range.end))
  }

  function Rest(start: int, end: int): seq<TimeRange> {
    if start < end then DaySplit(TimeRange(start, end)) else []
  }

  method DailyRanges(range: TimeRange) returns (ranges: seq<TimeRange>)
    requires ToUtcDefined(range.start)
    ensures ranges == DaySplit(range)
  {
    ranges := [];
    var start := range.start;
    while start < range.end
      invariant range.start <= start <= range.end && (ToUtcDefined(start) || start == range.end)
      invariant DaySplit(range) == ranges + Rest(start, range.end)
      decreases range.end - start
    {
      var nextMidnight := NextMidnight(start);
      var end := if nextMidnight < range.end then nextMidnight else range.end;
      ranges := ranges + [TimeRange(start, end)];
      start := end;
    }
  }

  /** A shard is all of the range that lies in one UTC day. */
  ghost predicate IsDayOf(s: TimeRange, range: TimeRange, day: int) {
    forall t :: s.Has(t) <==> range.Has(t) && DayOf(t) == day
  }

  lemma FirstShardIsDay(range: TimeRange)
    ensures IsDayOf(FirstShard(range), range, DayOf(range.start))
  {
  }

  /** Every shard is one day of the range... */
  lemma {:induction false} ShardIsDay(range: TimeRange, s: TimeRange)
    requires s in DaySplit(range)
    ensures IsDayOf(s, range, DayOf(s.start))
    decreases range.end - range.start
  {
    var first := FirstShard(range);
    if s == first {
      FirstShardIsDay(range);
    } else {
      ShardIsDay(TimeRange(first.end, range.end), s);
      LaterDay(range, s);
    }
  }

  /** ...of 86400 seconds from midnight... */
  lemma ShardIsUtcDay(range: TimeRange, s: TimeRange, t: int)
    requires s in DaySplit(range)
    ensures s.Has(t) <==> range.Has(t) && t / 86_400_000_000_000 == s.start / 86_400_000_000_000
  {
    ShardIsDay(range, s);
  }

  /** ...and every instant of the range is in one. */
  lemma {:induction false} ShardOf(range: TimeRange, t: int) returns (s: TimeRange)
    requires range.Has(t)
    ensures s in DaySplit(range) && s.Has(t)
    decreases range.end - range.start
  {
    s := FirstShard(range);
    if !s.Has(t) {
      s := ShardOf(TimeRange(s.end, range.end), t);
    }
  }

  lemma LaterDay(range: TimeRange, s: TimeRange)
    requires FirstShard(range).end < range.end
    requires IsDayOf(s, TimeRange(FirstShard(range).end, range.end), DayOf(s.start))
    ensures IsDayOf(s, range, DayOf(s.start))
  {
  }

  // ---- Merging the days ----

  datatype DayAnswer = Pages(pages: seq<seq<Quote>>) | NotEntitled | Failed(message: string)
  datatype Shard = Shard(range: TimeRange, answer: DayAnswer)

  function Flatten(pages: seq<seq<Quote>>): seq<Quote> {
    if pages == [] then [] else Flatten(pages[..|pages| - 1]) + pages[|pages| - 1]
  }

  /** The part of a stream the endpoint serves for a range. */
  function Within(quotes: seq<Quote>, range: TimeRange): seq<Quote>
    decreases |quotes|
  {
    if quotes == [] then [] else
      var q := quotes[|quotes| - 1];
      Within(quotes[..|quotes| - 1], range) + if range.Has(q.timestamp) then [q] else []
  }

  predicate AllFetched(completed: seq<Shard>) {
    forall i :: 0 <= i < |completed| ==> completed[i].answer.Pages?
  }

  function DayMap(b: Bucketing, s: Shard): map<int, Accumulated>
    requires s.answer.Pages?
  {
    Accumulate(b, s.range, Flatten(s.answer.pages), map[])
  }

  /** The daily maps appended in the order the days completed: a later day's entry replaces. */
  function Merged(b: Bucketing, completed: seq<Shard>): map<int, Accumulated>
    requires AllFetched(completed)
    decreases |completed|
  {
    if completed == [] then map[]
    else Merged(b, completed[..|completed| - 1]) + DayMap(b, completed[|completed| - 1])
  }

  /** The endpoint served each shard, however paged, from the one stream. */
  ghost predicate Serves(completed: seq<Shard>, stream: seq<Quote>) {
    forall i :: 0 <= i < |completed| ==>
      completed[i].answer.Pages? && Flatten(completed[i].answer.pages) == Within(stream, completed[i].range)
  }

  /** The shards of `completed` are the days of the range, in any order. */
  ghost predicate CompletesInAnyOrder(completed: seq<Shard>, range: TimeRange) {
    && (forall i :: 0 <= i < |completed| ==> completed[i].range in DaySplit(range))
    && (forall s :: s in DaySplit(range) ==> exists i :: 0 <= i < |completed| && completed[i].range == s)
  }

  /** Two instants whose quotes count towards one bar. */
  predicate SameBar(b: Bucketing, t: int, u: int) {
    b.WindowOf(t).Some? && b.WindowOf(u).Some? && b.WindowOf(t).value.start == b.WindowOf(u).value.start
  }

  /** No two UTC days ever share a bar. */
  ghost predicate DayLocal(b: Bucketing) {
    forall t, u :: SameBar(b, t, u) ==> DayOf(t) == DayOf(u)
  }

  /** No two UTC days of the range share a bar. */
  ghost predicate DayLocalIn(b: Bucketing, range: TimeRange) {
    forall t, u :: SameBar(b, t, u) && range.Has(t) && range.Has(u) ==> DayOf(t) == DayOf(u)
  }

  lemma {:induction false} WithinSuffices(b: Bucketing, range: TimeRange, key: int, quotes: seq<Quote>)
    ensures AtKey(b, range, key, Within(quotes, range)) == AtKey(b, range, key, quotes)
    decreases |quotes|
  {
    if quotes != [] {
      var q, most := quotes[|quotes| - 1], quotes[..|quotes| - 1];
      WithinSuffices(b, range, key, most);
      if range.Has(q.timestamp) {
        assert Within(quotes, range)[..|Within(quotes, range)| - 1] == Within(most, range);
      } else {
        assert Within(quotes, range) == Within(most, range);
      }
    }
  }

  /** Whether a quote of the range counts towards the bar. */
  ghost predicate Counts(b: Bucketing, range: TimeRange, key: int, q: Quote) {
    Placed(b, range, q).Some? && Placed(b, range, q).value.start == key
  }

  lemma {:induction false} SameCount(b: Bucketing, range: TimeRange, shard: TimeRange, key: int, quotes: seq<Quote>)
    requires forall q :: q in quotes ==> (Counts(b, range, key, q) <==> Counts(b, shard, key, q))
    ensures AtKey(b, range, key, quotes) == AtKey(b, shard, key, quotes)
    decreases |quotes|
  {
    if quotes != [] {
      assert quotes[|quotes| - 1] in quotes;
      SameCount(b, range, shard, key, quotes[..|quotes| - 1]);
      assert Counts(b, range, key, quotes[|quotes| - 1]) <==> Counts(b, shard, key, quotes[|quotes| - 1]);
    }
  }

  lemma {:induction false} NoneCounts(b: Bucketing, range: TimeRange, key: int, quotes: seq<Quote>)
    requires forall q :: q in quotes ==> !Counts(b, range, key, q)
    ensures AtKey(b, range, key, quotes) == None
    decreases |quotes|
  {
    if quotes != [] {
      assert quotes[|quotes| - 1] in quotes;
      assert !Counts(b, range, key, quotes[|quotes| - 1]);
      NoneCounts(b, range, key, quotes[..|quotes| - 1]);
    }
  }

  /** A day's map holds what one pass over the whole stream, restricted to the day, would. */
  lemma DayMapAtKey(b: Bucketing, s: Shard, key: int, stream: seq<Quote>)
    requires s.answer.Pages? && Flatten(s.answer.pages) == Within(stream, s.range)
    ensures Lookup(DayMap(b, s), key) == AtKey(b, s.range, key, stream)
  {
    AccumulateAtKey(b, s.range, Within(stream, s.range), key);
    WithinSuffices(b, s.range, key, stream);
  }

  lemma AppendAtKey<V>(m: map<int, V>, day: map<int, V>, key: int)
    ensures Lookup(m + day, key) == if Lookup(day, key).Some? then Lookup(day, key) else Lookup(m, key)
  {
  }

  ghost predicate Completes(completed: seq<Shard>, home: TimeRange) {
    exists i :: 0 <= i < |completed| && completed[i].range == home
  }

  lemma CompletesOneMore(most: seq<Shard>, last: Shard, home: TimeRange)
    ensures Completes(most + [last], home) <==> Completes(most, home) || last.range == home
  {
    if Completes(most, home) {
      var i :| 0 <= i < |most| && most[i].range == home;
      assert (most + [last])[i].range == home;
    }
    assert (most + [last])[|most|] == last;
  }

  /** A bar that only one shard can hold comes out of the merge as that shard left it. */
  lemma {:induction false} MergedAtKey(b: Bucketing, completed: seq<Shard>, stream: seq<Quote>, key: int,
                                       home: TimeRange)
    requires Serves(completed, stream)
    requires forall i :: 0 <= i < |completed| && completed[i].range != home ==>
               AtKey(b, completed[i].range, key, stream) == None
    ensures Lookup(Merged(b, completed), key) ==
            if Completes(completed, home) then AtKey(b, home, key, stream) else None
    decreases |completed|
  {
    if completed != [] {
      var most, last := completed[..|completed| - 1], completed[|completed| - 1];
      assert completed == most + [last];
      MergedAtKey(b, most, stream, key, home);
      DayMapAtKey(b, last, key, stream);
      CompletesOneMore(most, last, home);
      AppendAtKey(Merged(b, most), DayMap(b, last), key);
    }
  }

  lemma ShardHas(range: TimeRange, s: TimeRange, t: int)
    requires s in DaySplit(range)
    ensures s.Has(t) <==> range.Has(t) && DayOf(t) == DayOf(s.start)
  {
    ShardIsDay(range, s);
  }

  /** All quotes of the bar are of one day. */
  ghost predicate OneDay(b: Bucketing, range: TimeRange, key: int, stream: seq<Quote>) {
    forall p, q :: p in stream && q in stream && Counts(b, range, key, p) && Counts(b, range, key, q) ==>
      DayOf(p.timestamp) == DayOf(q.timestamp)
  }

  lemma DayLocalIsOneDay(b: Bucketing, range: TimeRange, stream: seq<Quote>, key: int)
    requires DayLocalIn(b, range)
    ensures OneDay(b, range, key, stream)
  {
    forall p, q | p in stream && q in stream && Counts(b, range, key, p) && Counts(b, range, key, q)
      ensures DayOf(p.timestamp) == DayOf(q.timestamp)
    {
      assert SameBar(b, p.timestamp, q.timestamp);
    }
  }

  /** Every quote of a bar is in the shard that holds one of them. */
  lemma HomeShard(b: Bucketing, range: TimeRange, home: TimeRange, key: int, stream: seq<Quote>, q: Quote)
    requires OneDay(b, range, key, stream) && home in DaySplit(range)
    requires q in stream && Counts(b, range, key, q) && home.Has(q.timestamp)
    ensures AtKey(b, home, key, stream) == AtKey(b, range, key, stream)
  {
    ShardHas(range, home, q.timestamp);
    forall p | p in stream ensures Counts(b, range, key, p) <==> Counts(b, home, key, p) {
      ShardHas(range, home, p.timestamp);
    }
    SameCount(b, range, home, key, stream);
  }

  lemma OtherShard(b: Bucketing, range: TimeRange, home: TimeRange, s: TimeRange, key: int, stream: seq<Quote>,
                   q: Quote)
    requires OneDay(b, range, key, stream) && home in DaySplit(range) && s in DaySplit(range) && s != home
    requires q in stream && Counts(b, range, key, q) && home.Has(q.timestamp)
    ensures AtKey(b, s, key, stream) == None
  {
    ShardHas(range, home, q.timestamp);
    forall p | p in stream ensures !Counts(b, s, key, p) {
      if Counts(b, s, key, p) {
        ShardHas(range, s, p.timestamp);
        assert Counts(b, range, key, p);
        SameDaySameShard(range, s, home);
      }
    }
    NoneCounts(b, s, key, stream);
  }

  lemma SameDaySameShard(range: TimeRange, a: TimeRange, b: TimeRange)
    requires a in DaySplit(range) && b in DaySplit(range) && DayOf(a.start) == DayOf(b.start)
    ensures a == b
  {
    ShardIsDay(range, a);
    ShardIsDay(range, b);
    SameInstants(a, b);
  }

  lemma SameInstants(a: TimeRange, b: TimeRange)
    requires forall t :: a.Has(t) <==> b.Has(t)
    ensures a == b
  {
    assert a.Has(a.start) && b.Has(b.start) && a.Has(a.end - 1) && b.Has(b.end - 1);
    assert !a.Has(a.end) && !b.Has(b.end);
  }

  /** Sharding by UTC day, paging each day and merging in any completion order is one pass. */
  lemma ShardsAgreeWithOnePass(b: Bucketing, range: TimeRange, stream: seq<Quote>, completed: seq<Shard>)
    requires DayLocalIn(b, range) && Serves(completed, stream) && CompletesInAnyOrder(completed, range)
    ensures Merged(b, completed) == Accumulate(b, range, stream, map[])
  {
    var merged, once := Merged(b, completed), Accumulate(b, range, stream, map[]);
    forall key ensures Lookup(merged, key) == Lookup(once, key) {
      DayLocalIsOneDay(b, range, stream, key);
      MergeAgreesAt(b, range, stream, completed, key);
      AccumulateAtKey(b, range, stream, key);
    }
    forall key ensures key in merged <==> key in once {
      assert Lookup(merged, key) == Lookup(once, key);
    }
    forall key | key in merged ensures merged[key] == once[key] {
      assert Lookup(merged, key) == Lookup(once, key);
    }
  }

  /** A bar all of whose quotes are of one day comes out of the merge as one pass makes it. */
  lemma MergeAgreesAt(b: Bucketing, range: TimeRange, stream: seq<Quote>, completed: seq<Shard>, key: int)
    requires OneDay(b, range, key, stream) && Serves(completed, stream) && CompletesInAnyOrder(completed, range)
    ensures Lookup(Merged(b, completed), key) == AtKey(b, range, key, stream)
  {
    if q :| q in stream && Counts(b, range, key, q) {
      var home := ShardOf(range, q.timestamp);
      HomeShard(b, range, home, key, stream, q);
      forall i | 0 <= i < |completed| && completed[i].range != home
        ensures AtKey(b, completed[i].range, key, stream) == None
      {
        OtherShard(b, range, home, completed[i].range, key, stream, q);
      }
      MergedAtKey(b, completed, stream, key, home);
    } else {
      NoneCounts(b, range, key, stream);
      forall i | 0 <= i < |completed| ensures AtKey(b, completed[i].range, key, stream) == None {
        EmptyBar(b, range, completed[i].range, key, stream);
      }
      MergedAtKey(b, completed, stream, key, range);
    }
  }

  lemma EmptyBar(b: Bucketing, range: TimeRange, s: TimeRange, key: int, stream: seq<Quote>)
    requires s in DaySplit(range)
    requires forall q :: q in stream ==> !Counts(b, range, key, q)
    ensures AtKey(b, s, key, stream) == None
  {
    forall q | q in stream ensures !Counts(b, s, key, q) {
      ShardHas(range, s, q.timestamp);
      assert !Counts(b, range, key, q);
    }
    NoneCounts(b, s, key, stream);
  }

  // ---- Which bucketings are day-local ----

  /** A fixed period keeps its bars inside UTC days exactly when it divides the day. */
  lemma FixedIsDayLocalIff(period: Period)
    ensures DayLocal(Fixed(period)) <==> DAY % period == 0
  {
    var b := Fixed(period);
    if DAY % period == 0 {
      forall t, u | b.WindowOf(t).value.start == b.WindowOf(u).value.start ensures DayOf(t) == DayOf(u) {
        BucketInDay(t, period);
        BucketInDay(u, period);
      }
    } else {
      MidnightInsideBucket(period);
      assert b.WindowOf(DAY - 1).value.start == b.WindowOf(DAY).value.start;
      assert DayOf(DAY - 1) != DayOf(DAY);
    }
  }

  lemma MidnightInsideBucket(period: Period)
    requires DAY % period != 0
    ensures (DAY - 1) / period == DAY / period
  {
    Quotient(DAY - 1, DAY / period, period);
  }

  /** The day of an instant is the day its bucket starts in. */
  lemma BucketInDay(t: int, period: Period)
    requires DAY % period == 0
    ensures DayOf(t) == DayOf(t / period * period)
  {
    var k, c := DAY / period, t / period;
    assert DAY == k * period;
    Nested(k, c, period);
    DayBounds(t, c / k);
    DayBounds(c * period, c / k);
  }

  lemma Nested(k: int, c: int, period: Period)
    requires k > 0
    ensures c / k * (k * period) <= c * period && c * period + period <= (c / k + 1) * (k * period)
  {
    var d := c / k;
    assert d * k <= c && c + 1 <= (d + 1) * k;
    MulMonotone(d * k, c, period);
    MulMonotone(c + 1, (d + 1) * k, period);
    assert d * k * period == d * (k * period);
    assert (d + 1) * k * period == (d + 1) * (k * period);
  }

  /** Daily bars whose sessions each open and close in one UTC day. */
  lemma SessionsInOneDay(session: int -> Option<Window>)
    requires forall t :: session(t).Some? ==> DayOf(session(t).value.start) == DayOf(session(t).value.end)
    ensures DayLocal(Sessions(session))
  {
    var b := Sessions(session);
    forall t | b.WindowOf(t).Some? ensures DayOf(t) == DayOf(b.WindowOf(t).value.start) {
      var w := session(t).value;
      DayBounds(w.start, DayOf(w.start));
      DayBounds(w.end, DayOf(w.start));
      DayBounds(t, DayOf(w.start));
    }
  }

  // ---- A bar that straddles midnight is not rebuilt ----

  function Bid(t: int, price: real): Quote { Quote(t, Some(price), None, None, None) }

  function TwoBids(t: int, u: int): seq<Quote> { [Bid(t, 1.0), Bid(u, 2.0)] }

  predicate SpansBoth(a: Option<Accumulated>) {
    a.Some? && a.value.bid.Some? && a.value.bid.value.open != a.value.bid.value.close
  }

  lemma TwoBidsSpan(b: Bucketing, range: TimeRange, t: int, u: int)
    requires SameBar(b, t, u)
    ensures var a := AtKey(b, range, b.WindowOf(t).value.start, TwoBids(t, u));
            && (SpansBoth(a) <==> range.Has(t) && range.Has(u))
            && (range.Has(t) ==> a.Some? && a.value.end == b.WindowOf(t).value.end)
  {
    var key := b.WindowOf(t).value.start;
    assert TwoBids(t, u)[..1] == [Bid(t, 1.0)];
    assert [Bid(t, 1.0)][..0] == [];
    assert AtKey(b, range, key, []) == None;
  }

  /** What the merge holds for a bar is what one of the shards holds for it. */
  lemma {:induction false} MergedComesFromShard(b: Bucketing, completed: seq<Shard>, stream: seq<Quote>, key: int)
    requires Serves(completed, stream)
    ensures var merged := Lookup(Merged(b, completed), key);
            if merged.None? then forall i :: 0 <= i < |completed| ==> AtKey(b, completed[i].range, key, stream) == None
            else exists i :: 0 <= i < |completed| && AtKey(b, completed[i].range, key, stream) == merged
    decreases |completed|
  {
    if completed != [] {
      var most, last := completed[..|completed| - 1], completed[|completed| - 1];
      MergedComesFromShard(b, most, stream, key);
      DayMapAtKey(b, last, key, stream);
      AppendAtKey(Merged(b, most), DayMap(b, last), key);
      if Lookup(DayMap(b, last), key).None? && Lookup(Merged(b, most), key).Some? {
        var i :| 0 <= i < |most| && AtKey(b, most[i].range, key, stream) == Lookup(Merged(b, most), key);
        assert completed[i] == most[i];
      }
    }
  }

  /** When two UTC days of the range share a bar, two bids suffice to tell sharding from one pass. */
  lemma StraddlingBarDiffers(b: Bucketing, t: int, u: int, range: TimeRange, completed: seq<Shard>)
    requires SameBar(b, t, u) && DayOf(t) != DayOf(u) && range.Has(t) && range.Has(u)
    requires Serves(completed, TwoBids(t, u)) && CompletesInAnyOrder(completed, range)
    ensures var key := b.WindowOf(t).value.start;
            && SpansBoth(Lookup(Accumulate(b, range, TwoBids(t, u), map[]), key))
            && !SpansBoth(Lookup(Merged(b, completed), key))
  {
    var stream, key := TwoBids(t, u), b.WindowOf(t).value.start;
    TwoBidsSpan(b, range, t, u);
    AccumulateAtKey(b, range, stream, key);
    forall i | 0 <= i < |completed| ensures !SpansBoth(AtKey(b, completed[i].range, key, stream)) {
      var s := completed[i].range;
      ShardHas(range, s, t);
      ShardHas(range, s, u);
      TwoBidsSpan(b, s, t, u);
    }
    MergedComesFromShard(b, completed, stream, key);
  }

  // ---- Exactly when sharding is one pass ----

  /** The days of a range, each served in one page. */
  function OnePageEach(days: seq<TimeRange>, stream: seq<Quote>): seq<Shard> {
    seq(|days|, i requires 0 <= i < |days| => Shard(days[i], Pages([Within(stream, days[i])])))
  }

  lemma OnePageEachServes(range: TimeRange, stream: seq<Quote>)
    ensures var completed := OnePageEach(DaySplit(range), stream);
            Serves(completed, stream) && CompletesInAnyOrder(completed, range)
  {
    var days := DaySplit(range);
    var completed := OnePageEach(days, stream);
    forall i | 0 <= i < |completed| ensures Flatten(completed[i].answer.pages) == Within(stream, completed[i].range) {
      var page := Within(stream, days[i]);
      assert [page][..0] == [] && Flatten([page]) == Flatten([]) + page;
    }
    forall s | s in days ensures exists i :: 0 <= i < |completed| && completed[i].range == s {
      var i :| 0 <= i < |days| && days[i] == s;
      assert completed[i].range == s;
    }
  }

  /** However the days are paged and whenever they complete, the merged map is that of one pass. */
  ghost predicate AlwaysOnePass(b: Bucketing, range: TimeRange) {
    forall stream, completed :: Serves(completed, stream) && CompletesInAnyOrder(completed, range) ==>
      Merged(b, completed) == Accumulate(b, range, stream, map[])
  }

  /** For every stream, paging and completion order, the merged map is that of one pass if and only if no two
      UTC days of the range share a bar. */
  lemma OnePassIff(b: Bucketing, range: TimeRange)
    ensures AlwaysOnePass(b, range) <==> DayLocalIn(b, range)
  {
    if DayLocalIn(b, range) {
      forall stream, completed | Serves(completed, stream) && CompletesInAnyOrder(completed, range)
        ensures Merged(b, completed) == Accumulate(b, range, stream, map[])
      {
        ShardsAgreeWithOnePass(b, range, stream, completed);
      }
    } else {
      var t, u :| SameBar(b, t, u) && range.Has(t) && range.Has(u) && DayOf(t) != DayOf(u);
      OnePageEachServes(range, TwoBids(t, u));
      StraddlingBarDiffers(b, t, u, range, OnePageEach(DaySplit(range), TwoBids(t, u)));
    }
  }
}
