/** The cache-first history provider: a durable store, historical providers, and the queue of
    coverage remembered from earlier calls. Store and providers are the outside world: each
    of their calls may fail, and an append may drop a batch after committing part of it. */
module CacheFirst {
  import opened Results
  import opened Sorting
  import opened Coverage
  import opened HistoryRows
  import opened CanonicalRows

  datatype AppendOutcome = Persisted | Dropped

  /** `id` is the subscription's unique id, which fixes its configuration and so its row family. */
  datatype Request = Request(id: nat, range: TimeRange)

  datatype PrefetchedCoverage = PrefetchedCoverage(id: nat, range: TimeRange, coverage: seq<TimeRange>) {
    predicate Serves(request: Request) {
      id == request.id && range.start <= request.range.start && range.end >= request.range.end
    }
  }

  /** An entry serves the requests of its subscription that ask for no instant outside its range. */
  lemma ServesIff(e: PrefetchedCoverage, request: Request)
    ensures e.Serves(request) <==> e.id == request.id && forall t :: request.range.Has(t) ==> e.range.Has(t)
  {
    var r := request.range;
    assert r.Has(r.start) && r.Has(r.end - 1);
  }

  const PREFETCHED_COVERAGE_CAPACITY := 8192

  /** The bounded queue drops its oldest entry. */
  function Pushed(queue: seq<PrefetchedCoverage>, entry: PrefetchedCoverage): seq<PrefetchedCoverage> {
    var all := queue + [entry];
    if |all| > PREFETCHED_COVERAGE_CAPACITY then all[1..] else all
  }

  /** The coverage of the newest remembered entry that contains the request. */
  function Newest(queue: seq<PrefetchedCoverage>, request: Request): Option<seq<TimeRange>> {
    if queue == [] then None
    else if queue[|queue| - 1].Serves(request) then Some(queue[|queue| - 1].coverage)
    else Newest(queue[..|queue| - 1], request)
  }

  lemma {:induction false} NewestServes(queue: seq<PrefetchedCoverage>, request: Request)
    ensures Newest(queue, request).Some? <==> exists e :: e in queue && e.Serves(request)
    ensures Newest(queue, request).Some? ==>
              exists e :: e in queue && e.Serves(request) && e.coverage == Newest(queue, request).value
  {
    if queue != [] {
      var most, last := queue[..|queue| - 1], queue[|queue| - 1];
      NewestServes(most, request);
      assert queue == most + [last];
    }
  }

  /** The queue after remembering the durable coverage of each request, in order. */
  function Warmed(queue: seq<PrefetchedCoverage>, requests: seq<Request>,
                  covered: map<nat, seq<TimeRange>>): seq<PrefetchedCoverage> {
    if requests == [] then queue
    else
      var last := requests[|requests| - 1];
      Pushed(Warmed(queue, requests[..|requests| - 1], covered),
             PrefetchedCoverage(last.id, last.range, CoverageIn(covered, last.id)))
  }

  method RowsInRange(rows: seq<Row>, range: TimeRange) returns (r: seq<Row>)
    ensures forall x :: x in r <==> x in rows && range.Has(x.at)
  {
    r := [];
    for i := 0 to |rows|
      invariant forall x :: x in r <==> x in rows[..i] && range.Has(x.at)
    {
      if range.Has(rows[i].at) {
        r := r + [rows[i]];
      }
    }
    assert rows[..|rows|] == rows;
  }

  /** A provider publishes one fixed series per subscription. Its contract allows an answer in
      any order and with repetitions. */
  class HistoricalDataProvider {
    const published: map<nat, seq<Row>>
    /** Every request the provider has been asked, failed ones included. */
    ghost var asked: seq<Request>

    constructor (published: map<nat, seq<Row>>)
      ensures this.published == published && asked == []
    {
      this.published := published;
      asked := [];
    }

    predicate Supports(id: nat) { id in published }

    ghost function Series(id: nat): set<Row> {
      if id in published then Elements(published[id]) else {}
    }

    method GetHistory(id: nat, range: TimeRange) returns (r: Result<seq<Row>>)
      requires Supports(id)
      modifies this`asked
      ensures r.Ok? ==> Answers(Series(id), range, r.value)
      ensures asked == old(asked) + [Request(id, range)]
    {
      asked := asked + [Request(id, range)];
      if * {
        r := Err("provider unavailable");
      } else {
        var rows := RowsInRange(published[id], range);
        r := Ok(rows);
      }
    }
  }

  /** One request for each of the gaps. */
  function AskedFor(id: nat, gaps: seq<TimeRange>): seq<Request> {
    seq(|gaps|, i requires 0 <= i < |gaps| => Request(id, gaps[i]))
  }

  function CoverageIn(covered: map<nat, seq<TimeRange>>, id: nat): seq<TimeRange> {
    if id in covered then covered[id] else []
  }

  /** Coverage is never lost, and is gained only for `id` inside `range`. */
  ghost predicate GrowsWithin(before: map<nat, seq<TimeRange>>, after: map<nat, seq<TimeRange>>, id: nat,
                              range: TimeRange) {
    && (forall k: nat :: k != id ==> CoverageIn(after, k) == CoverageIn(before, k))
    && (forall t :: Covers(CoverageIn(before, id), t) ==> Covers(CoverageIn(after, id), t))
    && (forall t :: Covers(CoverageIn(after, id), t) ==> Covers(CoverageIn(before, id), t) || range.Has(t))
  }

  lemma GrowthComposes(a: map<nat, seq<TimeRange>>, b: map<nat, seq<TimeRange>>, c: map<nat, seq<TimeRange>>,
                       id: nat, inner: TimeRange, outer: TimeRange)
    requires GrowsWithin(a, b, id, outer) && GrowsWithin(b, c, id, inner)
    requires forall t :: inner.Has(t) ==> outer.Has(t)
    ensures GrowsWithin(a, c, id, outer)
  {
  }

  /** The durable store: rows and coverage are separate tables, keyed by subscription. */
  class HistoricalDataStore {
    var covered: map<nat, seq<TimeRange>>
    var rows: map<nat, seq<Row>>

    function CoveredOf(id: nat): seq<TimeRange>
      reads this
    {
      CoverageIn(covered, id)
    }

    function RowsOf(id: nat): seq<Row>
      reads this
    {
      if id in rows then rows[id] else []
    }

    constructor ()
      ensures covered == map[] && rows == map[]
    {
      covered, rows := map[], map[];
    }

    method ReadCoverage(id: nat) returns (r: Result<seq<TimeRange>>)
      ensures r.Ok? ==> r.value == CoveredOf(id)
    {
      if * { r := Err("coverage unavailable"); } else { r := Ok(CoveredOf(id)); }
    }

    method Read(id: nat, range: TimeRange) returns (r: Result<seq<Row>>)
      ensures r.Ok? ==> forall x :: x in r.value <==> x in RowsOf(id) && range.Has(x.at)
    {
      if * {
        r := Err("rows unavailable");
      } else {
        var found := RowsInRange(RowsOf(id), range);
        r := Ok(found);
      }
    }

    /** Any part of the batch may be committed unless the store says it persisted all of it. */
    method Append(id: nat, data: seq<Row>) returns (r: Result<AppendOutcome>)
      modifies this`rows
      ensures forall other :: other != id ==> RowsOf(other) == old(RowsOf(other))
      ensures forall x :: x in old(RowsOf(id)) ==> x in RowsOf(id)
      ensures forall x :: x in RowsOf(id) ==> x in old(RowsOf(id)) || x in data
      ensures r == Ok(Persisted) ==> forall x :: x in data ==> x in RowsOf(id)
    {
      var committed :| 0 <= committed <= |data|;
      if committed < |data| {
        rows := rows[id := RowsOf(id) + data[..committed]];
        if * { r := Ok(Dropped); } else { r := Err("append failed"); }
      } else {
        rows := rows[id := RowsOf(id) + data];
        if * { r := Ok(Persisted); } else { r := Ok(Dropped); }
      }
    }

    method MarkCovered(id: nat, range: TimeRange) returns (r: Result<()>)
      modifies this`covered
      ensures forall other: nat :: other != id ==> CoverageIn(covered, other) == CoverageIn(old(covered), other)
      ensures CoveredOf(id) == old(CoveredOf(id)) + [range] || CoveredOf(id) == old(CoveredOf(id))
      ensures r.Ok? ==> CoveredOf(id) == old(CoveredOf(id)) + [range]
    {
      if * {
        r := Err("coverage refused");
      } else {
        covered := covered[id := CoveredOf(id) + [range]];
        if * { r := Ok(()); } else { r := Err("acknowledgement lost"); }
      }
    }

    method Prefetch(requests: seq<Request>) returns (r: Result<()>)
    {
      if * { r := Err("prefetch failed"); } else { r := Ok(()); }
    }
  }

  /** Rows whose append was dropped, kept in memory batch by batch. */
  ghost predicate InBatches(batches: seq<seq<Row>>, x: Row) {
    exists i :: 0 <= i < |batches| && x in batches[i]
  }

  lemma InBatchesAppend(batches: seq<seq<Row>>, last: seq<Row>, x: Row)
    ensures InBatches(batches + [last], x) <==> InBatches(batches, x) || x in last
  {
    if i :| 0 <= i < |batches| && x in batches[i] {
      assert x in (batches + [last])[i];
    }
    if x in last {
      assert x in (batches + [last])[|batches|];
    }
  }

  class CacheFirstHistoryProvider {
    const store: HistoricalDataStore
    const providers: seq<HistoricalDataProvider>
    const familyOf: nat -> Family
    var prefetchedCoverage: seq<PrefetchedCoverage>

    /** `providers.iter().find(supports)`, from position `from`. */
    function FirstSupporting(id: nat, from: nat): Option<HistoricalDataProvider>
      requires from <= |providers|
      decreases |providers| - from
    {
      if from == |providers| then None
      else if providers[from].Supports(id) then Some(providers[from])
      else FirstSupporting(id, from + 1)
    }

    ghost function Series(id: nat): set<Row> {
      match FirstSupporting(id, 0)
      case Some(p) => p.Series(id)
      case None => {}
    }

    /** The series has one row per identity, every row the durable coverage speaks for is in the
        store, and the store invents no row. */
    ghost predicate SoundFor(id: nat)
      reads store
    {
      FirstSupporting(id, 0).Some? ==>
        && OneRowPerIdentity(familyOf(id), Series(id))
        && (forall x :: x in store.RowsOf(id) ==> x in Series(id))
        && (forall x :: x in Series(id) && Covers(store.CoveredOf(id), x.at) ==> x in store.RowsOf(id))
    }

    ghost predicate StoreSound()
      reads store
    {
      forall id: nat :: SoundFor(id)
    }

    /** Remembered coverage may lag behind the store, never run ahead of it. */
    ghost predicate RememberedSound()
      reads this, store
    {
      && |prefetchedCoverage| <= PREFETCHED_COVERAGE_CAPACITY
      && forall e, t :: e in prefetchedCoverage && Covers(e.coverage, t) ==> Covers(store.CoveredOf(e.id), t)
    }

    ghost predicate Valid()
      reads this, store
    {
      StoreSound() && RememberedSound()
    }

    /** The store may hold whatever an earlier run left there, provided it is sound. */
    constructor (store: HistoricalDataStore, providers: seq<HistoricalDataProvider>, familyOf: nat -> Family)
      requires providers != []
      ensures this.store == store && this.providers == providers && this.familyOf == familyOf
      ensures prefetchedCoverage == []
      ensures StoreSound() ==> Valid()
    {
      this.store := store;
      this.providers := providers;
      this.familyOf := familyOf;
      prefetchedCoverage := [];
    }

    /** The coverage a read goes by: what is remembered for the request, or else what is durable. */
    ghost function Known(request: Request): seq<TimeRange>
      reads this, store
    {
      var remembered := Newest(prefetchedCoverage, request);
      if remembered.Some? then remembered.value else store.CoveredOf(request.id)
    }

    lemma KnownIsDurable(request: Request)
      requires RememberedSound()
      ensures forall t :: Covers(Known(request), t) ==> Covers(store.CoveredOf(request.id), t)
    {
      NewestServes(prefetchedCoverage, request);
    }

    /** The newest remembered entry that contains the request. */
    method LookUp(request: Request) returns (r: Option<seq<TimeRange>>)
      ensures r == Newest(prefetchedCoverage, request)
      ensures r.None? <==> forall e :: e in prefetchedCoverage ==> !e.Serves(request)
      ensures r.Some? ==> exists i ::
                && 0 <= i < |prefetchedCoverage|
                && prefetchedCoverage[i].Serves(request)
                && prefetchedCoverage[i].coverage == r.value
                && forall j :: i < j < |prefetchedCoverage| ==> !prefetchedCoverage[j].Serves(request)
    {
      var i := |prefetchedCoverage|;
      assert prefetchedCoverage[..i] == prefetchedCoverage;
      while i > 0
        invariant 0 <= i <= |prefetchedCoverage|
        invariant Newest(prefetchedCoverage, request) == Newest(prefetchedCoverage[..i], request)
        invariant forall j :: i <= j < |prefetchedCoverage| ==> !prefetchedCoverage[j].Serves(request)
      {
        i := i - 1;
        assert prefetchedCoverage[..i + 1][..i] == prefetchedCoverage[..i];
        if prefetchedCoverage[i].Serves(request) {
          assert prefetchedCoverage[i] in prefetchedCoverage;
          return Some(prefetchedCoverage[i].coverage);
        }
      }
      return None;
    }

    method Remember(request: Request, coverage: seq<TimeRange>)
      requires Valid()
      requires forall t :: Covers(coverage, t) ==> Covers(store.CoveredOf(request.id), t)
      modifies this
      ensures Valid()
      ensures prefetchedCoverage == Pushed(old(prefetchedCoverage),
              PrefetchedCoverage(request.id, request.range, coverage))
      ensures 0 < |prefetchedCoverage| <= 8192
      ensures prefetchedCoverage[|prefetchedCoverage| - 1] == PrefetchedCoverage(request.id, request.range, coverage)
      ensures |old(prefetchedCoverage)| < 8192 ==>
                prefetchedCoverage[..|old(prefetchedCoverage)|] == old(prefetchedCoverage)
    {
      prefetchedCoverage := prefetchedCoverage + [PrefetchedCoverage(request.id, request.range, coverage)];
      ghost var all := prefetchedCoverage;
      while |prefetchedCoverage| > PREFETCHED_COVERAGE_CAPACITY
        invariant |all| <= PREFETCHED_COVERAGE_CAPACITY + 1
        invariant prefetchedCoverage == all || (|all| > PREFETCHED_COVERAGE_CAPACITY && prefetchedCoverage == all[1..])
      {
        prefetchedCoverage := prefetchedCoverage[1..];
      }
    }

    /** Read the durable coverage of every request; the reads complete in any order. */
    method ReadAllCoverage(requests: seq<Request>) returns (r: Result<seq<seq<TimeRange>>>, completed: seq<Request>)
      ensures r.Ok? ==>
                && multiset(completed) == multiset(requests) && |r.value| == |completed|
                && forall k :: 0 <= k < |completed| ==> r.value[k] == store.CoveredOf(completed[k].id)
    {
      var found: seq<seq<TimeRange>> := [];
      completed := [];
      var rest := requests;
      while rest != []
        invariant multiset(completed) + multiset(rest) == multiset(requests) && |found| == |completed|
        invariant forall k :: 0 <= k < |completed| ==> found[k] == store.CoveredOf(completed[k].id)
        decreases |rest|
      {
        var i :| 0 <= i < |rest|;
        assert rest == rest[..i] + [rest[i]] + rest[i + 1..];
        var c := store.ReadCoverage(rest[i].id);
        if c.Err? { return Err(c.message), completed; }
        found, completed := found + [c.value], completed + [rest[i]];
        rest := rest[..i] + rest[i + 1..];
      }
      r := Ok(found);
    }

    /** Warm the queue with durable coverage, in the order the reads complete: all of it, or none when a read
        fails. The store's own prefetch comes last, so its failure leaves the queue warmed. */
    method PrefetchHistory(requests: seq<Request>) returns (r: Result<()>, ghost completed: seq<Request>)
      requires Valid()
      modifies this
      ensures Valid()
      ensures (multiset(completed) == multiset(requests)
              && prefetchedCoverage == Warmed(old(prefetchedCoverage), completed, store.covered))
              || (r.Err? && prefetchedCoverage == old(prefetchedCoverage))
    {
      var found, order := ReadAllCoverage(requests);
      completed := order;
      if found.Err? { return Err(found.message), completed; }
      for i := 0 to |order|
        invariant Valid()
        invariant prefetchedCoverage == Warmed(old(prefetchedCoverage), order[..i], store.covered)
      {
        Remember(order[i], found.value[i]);
        assert order[..i + 1][..i] == order[..i];
      }
      assert order[..|order|] == order;
      r := store.Prefetch(requests);
    }

    /** What a change of one subscription's tables must respect to keep the provider valid. */
    twostate lemma StoreStep(id: nat)
      requires old(Valid()) && prefetchedCoverage == old(prefetchedCoverage)
      requires forall k: nat :: k != id ==> store.CoveredOf(k) == old(store.CoveredOf(k))
      requires forall k: nat :: k != id ==> store.RowsOf(k) == old(store.RowsOf(k))
      requires forall x :: x in old(store.RowsOf(id)) ==> x in store.RowsOf(id)
      requires forall x :: x in store.RowsOf(id) ==> x in old(store.RowsOf(id)) || x in Series(id)
      requires forall t :: Covers(old(store.CoveredOf(id)), t) ==> Covers(store.CoveredOf(id), t)
      requires forall x ::
                 x in Series(id) && Covers(store.CoveredOf(id), x.at) && !Covers(old(store.CoveredOf(id)), x.at)
                 ==> x in store.RowsOf(id)
      ensures Valid()
    {
      forall k: nat ensures SoundFor(k) {
        assert old(SoundFor(k));
      }
    }

    /** One gap: ask the provider, persist, and only then mark the gap covered. The rows come
        back to the caller when the store dropped them. */
    method FetchGap(id: nat, provider: HistoricalDataProvider, gap: TimeRange) returns (r: Result<Option<seq<Row>>>)
      requires Valid()
      requires FirstSupporting(id, 0) == Some(provider) && provider.Supports(id)
      modifies store, provider`asked
      ensures Valid()
      ensures provider.asked == old(provider.asked) + [Request(id, gap)]
      ensures GrowsWithin(old(store.covered), store.covered, id, gap)
      ensures forall x :: x in old(store.RowsOf(id)) ==> x in store.RowsOf(id)
      ensures r.Ok? && r.value.Some? ==> Answers(Series(id), gap, r.value.value)
      ensures r.Ok? && r.value.None? ==> forall t :: gap.Has(t) ==> Covers(store.CoveredOf(id), t)
    {
      assert SoundFor(id);
      var answer := provider.GetHistory(id, gap);
      if answer.Err? { return Err(answer.message); }
      var fetched := Canonical(familyOf(id), answer.value);
      CanonicalKeepsRows(familyOf(id), Series(id), answer.value);
      var outcome := Persisted;
      if fetched != [] {
        var appended := store.Append(id, fetched);
        StoreStep(id);
        if appended.Err? { return Err(appended.message); }
        outcome := appended.value;
      }
      if outcome == Dropped { return Ok(Some(fetched)); }
      var marked := MarkFetched(id, gap);
      if marked.Err? { return Err(marked.message); }
      r := Ok(None);
    }

    /** Marking is safe once every row of the gap is stored; it may take effect even if it reports an error. */
    method MarkFetched(id: nat, gap: TimeRange) returns (r: Result<()>)
      requires Valid()
      requires forall x :: x in Series(id) && gap.Has(x.at) ==> x in store.RowsOf(id)
      modifies store`covered
      ensures Valid()
      ensures GrowsWithin(old(store.covered), store.covered, id, gap)
      ensures r.Ok? ==> forall t :: gap.Has(t) ==> Covers(store.CoveredOf(id), t)
    {
      r := store.MarkCovered(id, gap);
      forall t ensures Covers(old(store.CoveredOf(id)) + [gap], t)
          <==> Covers(old(store.CoveredOf(id)), t) || gap.Has(t) {
        CoversAppend(old(store.CoveredOf(id)), [gap], t);
        if gap.Has(t) { assert [gap][0].Has(t); }
      }
      StoreStep(id);
    }

    /** Fetch each gap in turn; `lost` collects the gaps the store dropped. */
    method FetchMissing(request: Request, provider: HistoricalDataProvider, coverage: seq<TimeRange>)
      returns (r: Result<(seq<TimeRange>, seq<seq<Row>>)>, ghost lost: seq<TimeRange>, gaps: seq<TimeRange>,
               ghost asked: nat)
      requires Valid()
      requires FirstSupporting(request.id, 0) == Some(provider) && provider.Supports(request.id)
      requires forall t :: Covers(coverage, t) ==> Covers(store.CoveredOf(request.id), t)
      modifies store, provider`asked
      ensures Valid()
      ensures IsMissing(coverage, request.range, gaps)
      ensures asked <= |gaps| && provider.asked == old(provider.asked) + AskedFor(request.id, gaps[..asked])
      ensures r.Ok? ==> asked == |gaps|
      ensures GrowsWithin(old(store.covered), store.covered, request.id, request.range)
      ensures r.Ok? ==> forall t :: Covers(r.value.0, t) ==> Covers(store.CoveredOf(request.id), t)
      ensures r.Ok? ==> forall x :: InBatches(r.value.1, x) ==> x in Series(request.id) && request.range.Has(x.at)
      ensures r.Ok? ==> forall t :: request.range.Has(t) ==> Covers(store.CoveredOf(request.id), t) || Covers(lost, t)
      ensures r.Ok? ==> forall x :: x in Series(request.id) && Covers(lost, x.at) ==> InBatches(r.value.1, x)
    {
      var updated, unpersisted := coverage, [];
      lost := [];
      gaps := Missing(coverage, request.range);
      var i := 0;
      asked := 0;
      while i < |gaps|
        invariant 0 <= i <= |gaps| && asked == i
        invariant provider.asked == old(provider.asked) + AskedFor(request.id, gaps[..i])
        invariant Valid() && prefetchedCoverage == old(prefetchedCoverage)
        invariant GrowsWithin(old(store.covered), store.covered, request.id, request.range)
        invariant forall t :: Covers(updated, t) ==> Covers(store.CoveredOf(request.id), t)
        invariant forall x :: InBatches(unpersisted, x) ==> x in Series(request.id) && request.range.Has(x.at)
        invariant forall t :: Covers(gaps[..i], t) ==> Covers(store.CoveredOf(request.id), t) || Covers(lost, t)
        invariant forall x :: x in Series(request.id) && Covers(lost, x.at) ==> InBatches(unpersisted, x)
      {
        var gap := gaps[i];
        assert forall t :: gap.Has(t) ==> Covers(gaps, t);
        ghost var before := store.covered;
        var fetched := FetchGap(request.id, provider, gap);
        asked := i + 1;
        assert AskedFor(request.id, gaps[..i + 1]) == AskedFor(request.id, gaps[..i]) + [Request(request.id, gap)];
        GrowthComposes(old(store.covered), before, store.covered, request.id, gap, request.range);
        if fetched.Err? { return Err(fetched.message), lost, gaps, asked; }
        assert gaps[..i + 1] == gaps[..i] + [gap];
        forall t ensures Covers(gaps[..i + 1], t) <==> Covers(gaps[..i], t) || gap.Has(t) {
          CoversAppend(gaps[..i], [gap], t);
          if gap.Has(t) { assert [gap][0].Has(t); }
        }
        match fetched.value {
          case Some(rows) =>
            forall x { InBatchesAppend(unpersisted, rows, x); }
            forall t ensures Covers(lost + [gap], t) <==> Covers(lost, t) || gap.Has(t) {
              CoversAppend(lost, [gap], t);
              if gap.Has(t) { assert [gap][0].Has(t); }
            }
            unpersisted := unpersisted + [rows];
            lost := lost + [gap];
          case None =>
            forall t ensures Covers(updated + [gap], t) ==> Covers(updated, t) || gap.Has(t) {
              CoversAppend(updated, [gap], t);
            }
            updated := updated + [gap];
        }
        i := i + 1;
      }
      assert gaps[..|gaps|] == gaps;
      r := Ok((updated, unpersisted));
    }

    /** Read what is durable, fetch the gaps, persist what can be persisted, and merge back from
        memory what could not. */
    method GetHistory(request: Request) returns (r: Result<seq<Row>>, ghost lost: seq<TimeRange>)
      requires Valid()
      modifies this, store, providers
      ensures Valid()
      ensures GrowsWithin(old(store.covered), store.covered, request.id, request.range)
      ensures Covered(old(Known(request)), request.range) ==> forall p :: p in providers ==> p.asked == old(p.asked)
      ensures familyOf(request.id) != CustomPoints && r.Ok? ==>
                AskedForGaps(request, old(Known(request)), old(AskedBefore(request.id)))
      ensures familyOf(request.id) == CustomPoints
              ==> store.covered == old(store.covered) && store.rows == old(store.rows)
      ensures r.Ok? ==> InOrder(familyOf(request.id), r.value)
      ensures familyOf(request.id) == CustomPoints && r.Ok? ==>
                forall x :: x in r.value <==> x in store.RowsOf(request.id) && request.range.Has(x.at)
      ensures familyOf(request.id) != CustomPoints && r.Ok? ==> RefinesProvider(request, r.value)
      ensures familyOf(request.id) != CustomPoints && r.Ok? ==>
                forall t :: request.range.Has(t) ==> Covers(store.CoveredOf(request.id), t) || Covers(lost, t)
    {
      lost := [];
      if familyOf(request.id) == CustomPoints {
        r := ReadCustom(request);
        return r, lost;
      }
      var chosen := FirstSupporting(request.id, 0);
      if chosen.None? { return Err("no historical provider supports the request"), lost; }
      FirstSupportingSupports(request.id, 0);
      var coverage := KnownCoverage(request);
      if coverage.Err? { return Err(coverage.message), lost; }
      KnownIsDurable(request);
      r, lost := ReadThrough(request, chosen.value, coverage.value);
    }

    /** Custom data is read from the store alone. */
    method ReadCustom(request: Request) returns (r: Result<seq<Row>>)
      ensures r.Ok? ==>
                && InOrder(CustomPoints, r.value)
                && forall x :: x in r.value <==> x in store.RowsOf(request.id) && request.range.Has(x.at)
    {
      var read := store.Read(request.id, request.range);
      if read.Err? { return read; }
      CanonicalRepresents(CustomPoints, read.value);
      CanonicalIsInOrder(CustomPoints, read.value);
      r := Ok(Canonical(CustomPoints, read.value));
    }

    method KnownCoverage(request: Request) returns (r: Result<seq<TimeRange>>)
      ensures r.Ok? ==> r.value == Known(request)
    {
      var known := LookUp(request);
      if known.Some? { return Ok(known.value); }
      r := store.ReadCoverage(request.id);
    }

    /** Fetch what the known coverage lacks, remember what is covered now, and read the range. */
    method ReadThrough(request: Request, provider: HistoricalDataProvider, coverage: seq<TimeRange>)
      returns (r: Result<seq<Row>>, ghost lost: seq<TimeRange>)
      requires Valid() && familyOf(request.id) != CustomPoints
      requires FirstSupporting(request.id, 0) == Some(provider) && provider.Supports(request.id)
      requires forall t :: Covers(coverage, t) ==> Covers(store.CoveredOf(request.id), t)
      modifies this, store, provider`asked
      ensures Valid()
      ensures GrowsWithin(old(store.covered), store.covered, request.id, request.range)
      ensures Covered(coverage, request.range) ==> provider.asked == old(provider.asked)
      ensures r.Ok? ==> exists gaps ::
                IsMissing(coverage, request.range, gaps)
                    && provider.asked == old(provider.asked) + AskedFor(request.id, gaps)
      ensures r.Ok? ==> RefinesProvider(request, r.value)
      ensures r.Ok? ==> forall t :: request.range.Has(t) ==> Covers(store.CoveredOf(request.id), t) || Covers(lost, t)
    {
      var outcome, gaps;
      ghost var asked;
      outcome, lost, gaps, asked := FetchMissing(request, provider, coverage);
      NothingMissing(coverage, request.range, gaps);
      assert gaps[..|gaps|] == gaps;
      if outcome.Err? { return Err(outcome.message), lost; }
      var (updated, unpersisted) := outcome.value;
      Remember(request, updated);
      var read := store.Read(request.id, request.range);
      if read.Err? { return read, lost; }
      assert SoundFor(request.id);
      var data := Merge(read.value, unpersisted);
      assert Answers(Series(request.id), request.range, data);
      CompleteRowsRefine(request, data);
      r := Ok(Canonical(familyOf(request.id), data));
    }

    /** What the subscription's provider has been asked so far. */
    ghost function AskedBefore(id: nat): seq<Request>
      reads providers
    {
      FirstSupportingSupports(id, 0);
      match FirstSupporting(id, 0)
      case Some(p) => p.asked
      case None => []
    }

    /** The provider has been asked for the gaps of the known coverage, once each and in order, and for nothing else. */
    ghost predicate AskedForGaps(request: Request, known: seq<TimeRange>, before: seq<Request>)
      reads providers
    {
      exists gaps :: IsMissing(known, request.range, gaps)
          && AskedBefore(request.id) == before + AskedFor(request.id, gaps)
    }

    lemma FirstSupportingSupports(id: nat, from: nat)
      requires from <= |providers|
      ensures FirstSupporting(id, from).Some? ==>
                FirstSupporting(id, from).value.Supports(id) && FirstSupporting(id, from).value in providers
      decreases |providers| - from
    {
    }

    /** What a successful read must return: exactly the series' rows in range, in order, no neighbours
        alike and of universe rows no two; and where a sort key names one row, the canonical form of any
        answer of the provider to the whole range. */
    ghost predicate RefinesProvider(request: Request, result: seq<Row>) {
      var family, series := familyOf(request.id), Series(request.id);
      && Answers(series, request.range, result)
      && InOrder(family, result) && NeighboursDiffer(family, result)
      && (family == Universe ==> NoTwoAlike(family, result))
      && (KeyDistinct(family, series) ==>
            && StrictlySorted(result, Order(family))
            && forall ans :: Answers(series, request.range, ans) ==> result == Canonical(family, ans))
    }

    /** What an operation of a run owes its caller: a read that succeeds is in order, and refines the provider
        unless it is of custom points, which are read from the store alone. */
    ghost predicate Answered(operation: Operation, answer: Result<seq<Row>>) {
      operation.Read? && answer.Ok? ==>
        && InOrder(familyOf(operation.request.id), answer.value)
        && (familyOf(operation.request.id) != CustomPoints ==> RefinesProvider(operation.request, answer.value))
    }

    lemma CompleteRowsRefine(request: Request, data: seq<Row>)
      requires familyOf(request.id) != CustomPoints
      requires OneRowPerIdentity(familyOf(request.id), Series(request.id))
      requires Answers(Series(request.id), request.range, data)
      ensures RefinesProvider(request, Canonical(familyOf(request.id), data))
    {
      var family, series := familyOf(request.id), Series(request.id);
      CanonicalKeepsRows(family, series, data);
      CanonicalIsInOrder(family, data);
      CanonicalNeighboursDiffer(family, data);
      UniverseHasOneOfEach(data);
      if KeyDistinct(family, series) {
        AnswerIsStrict(family, series, request.range, data);
        forall ans | Answers(series, request.range, ans) ensures Canonical(family, data) == Canonical(family, ans) {
          AnswersAgree(family, series, request.range, data, ans);
        }
      }
    }
  }

  /** Every instant of the range is covered. */
  ghost predicate Covered(coverage: seq<TimeRange>, range: TimeRange) {
    forall t :: range.Has(t) ==> Covers(coverage, t)
  }

  lemma NothingMissing(coverage: seq<TimeRange>, range: TimeRange, gaps: seq<TimeRange>)
    requires IsMissing(coverage, range, gaps)
    ensures Covered(coverage, range) ==> gaps == []
  {
    if Covered(coverage, range) && gaps != [] {
      assert gaps[0].Has(gaps[0].start);
      assert Covers(gaps, gaps[0].start);
    }
  }

  method Merge(rows: seq<Row>, batches: seq<seq<Row>>) returns (r: seq<Row>)
    ensures forall x :: x in r <==> x in rows || InBatches(batches, x)
  {
    r := rows;
    for i := 0 to |batches|
      invariant forall x :: x in r <==> x in rows || InBatches(batches[..i], x)
    {
      r := r + batches[i];
      assert batches[..i + 1] == batches[..i] + [batches[i]];
      forall x { InBatchesAppend(batches[..i], batches[i], x); }
    }
    assert batches[..|batches|] == batches;
  }

  datatype Operation = Prefetch(requests: seq<Request>) | Read(request: Request)

  /** Any run of prefetches and reads over one store, whatever fails on the way: the provider stays
      valid and every read that succeeds refines the provider it stands in for. */
  method Serve(cache: CacheFirstHistoryProvider, operations: seq<Operation>) returns (answers: seq<Result<seq<Row>>>)
    requires cache.Valid()
    modifies cache, cache.store, cache.providers
    ensures cache.Valid()
    ensures |answers| == |operations|
    ensures forall i :: 0 <= i < |operations| ==> cache.Answered(operations[i], answers[i])
  {
    answers := [];
    for i := 0 to |operations|
      invariant cache.Valid() && |answers| == i
      invariant forall k :: 0 <= k < i ==> cache.Answered(operations[k], answers[k])
    {
      match operations[i] {
        case Prefetch(requests) =>
          var _, _ := cache.PrefetchHistory(requests);
          answers := answers + [Ok([])];
        case Read(request) =>
          var answer, _ := cache.GetHistory(request);
          answers := answers + [answer];
      }
    }
  }
}
