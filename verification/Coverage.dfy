/** Half-open time ranges and the interval subtraction that drives the cache. */
module Coverage {
  import opened Sorting

  /** `TimeRange::new` refuses an empty or inverted range. */
  datatype RawRange = TimeRange(start: int, end: int) {
    predicate Has(t: int) { start <= t < end }
  }
  type TimeRange = r: RawRange | r.start < r.end witness TimeRange(0, 1)

  predicate StartsNoLater(a: TimeRange, b: TimeRange) { a.start <= b.start }

  ghost predicate Covers(ranges: seq<TimeRange>, t: int) {
    exists i :: 0 <= i < |ranges| && ranges[i].Has(t)
  }

  /** Sorted, pairwise disjoint and maximal: some instant lies between any two gaps. */
  ghost predicate Separated(gaps: seq<TimeRange>) {
    forall i, j :: 0 <= i < j < |gaps| ==> gaps[i].end < gaps[j].start
  }

  /** `gaps` is the requested range minus the covered union, in normal form. */
  ghost predicate IsMissing(covered: seq<TimeRange>, requested: TimeRange, gaps: seq<TimeRange>) {
    && Separated(gaps)
    && forall t :: Covers(gaps, t) <==> requested.Has(t) && !Covers(covered, t)
  }

  lemma CoversAppend(a: seq<TimeRange>, b: seq<TimeRange>, t: int)
    ensures Covers(a + b, t) <==> Covers(a, t) || Covers(b, t)
  {
    if Covers(a, t) {
      var i :| 0 <= i < |a| && a[i].Has(t);
      assert (a + b)[i].Has(t);
    }
    if Covers(b, t) {
      var i :| 0 <= i < |b| && b[i].Has(t);
      assert (a + b)[|a| + i].Has(t);
    }
  }

  lemma CoversSameElements(a: seq<TimeRange>, b: seq<TimeRange>, t: int)
    requires forall r :: r in a <==> r in b
    ensures Covers(a, t) <==> Covers(b, t)
  {
    if Covers(a, t) {
      var i :| 0 <= i < |a| && a[i].Has(t);
      assert a[i] in b;
    }
    if Covers(b, t) {
      var i :| 0 <= i < |b| && b[i].Has(t);
      assert b[i] in a;
    }
  }

  /** The requested instants before `cursor` have been sorted into gaps and covered ones. */
  ghost predicate Swept(sorted: seq<TimeRange>, requested: TimeRange, missing: seq<TimeRange>, cursor: int) {
    && requested.start <= cursor <= requested.end
    && Separated(missing)
    && forall t {:trigger Covers(missing, t)} ::
         Covers(missing, t) <==> requested.start <= t < cursor && !Covers(sorted, t)
  }

  ghost predicate Passed(range: TimeRange, requested: TimeRange, cursor: int) {
    range.end <= cursor || range.start >= requested.end || cursor == requested.end
  }

  /** The uncovered instants from the cursor up to `until` are the next gap. */
  lemma AddGap(sorted: seq<TimeRange>, i: nat, requested: TimeRange, missing: seq<TimeRange>, gap: TimeRange)
    requires Sorted(sorted, StartsNoLater) && i <= |sorted| && Swept(sorted, requested, missing, gap.start)
    requires forall k :: 0 <= k < |missing| ==> missing[k].end < gap.start
    requires forall k :: 0 <= k < i ==> Passed(sorted[k], requested, gap.start)
    requires gap.end <= requested.end && (i < |sorted| ==> gap.end <= sorted[i].start)
    ensures Swept(sorted, requested, missing + [gap], gap.end)
  {
    forall t ensures Covers(missing + [gap], t) <==> requested.start <= t < gap.end && !Covers(sorted, t) {
      CoversAppend(missing, [gap], t);
      if gap.Has(t) {
        assert [gap][0].Has(t);
        forall k | 0 <= k < |sorted| ensures !sorted[k].Has(t) {
          assert k < i || StartsNoLater(sorted[i], sorted[k]);
        }
      }
    }
  }

  /** The instants from the cursor to the end of a range that starts no later are covered. */
  lemma SkipCovered(sorted: seq<TimeRange>, i: nat, requested: TimeRange, missing: seq<TimeRange>, cursor: int,
                    end: int)
    requires i < |sorted| && Swept(sorted, requested, missing, cursor)
    requires sorted[i].start <= cursor <= end <= sorted[i].end && end <= requested.end
    ensures Swept(sorted, requested, missing, end)
  {
  }

  /** The first `i` ranges have been swept past, and every gap so far ends before the cursor. */
  ghost predicate SweptPast(sorted: seq<TimeRange>, i: nat, requested: TimeRange, missing: seq<TimeRange>,
                            cursor: int) {
    && i <= |sorted| && Swept(sorted, requested, missing, cursor)
    && (forall k :: 0 <= k < |missing| ==> missing[k].end < cursor)
    && (forall k :: 0 <= k < i ==> Passed(sorted[k], requested, cursor))
  }

  function Later(a: int, b: int): int { if a > b then a else b }

  function Earlier(a: int, b: int): int { if a < b then a else b }

  /** One range swept: the gap before it, if any, and the cursor moved past it. */
  lemma OneRange(sorted: seq<TimeRange>, i: nat, requested: TimeRange, missing: seq<TimeRange>, cursor: int)
    requires Sorted(sorted, StartsNoLater) && i < |sorted| && SweptPast(sorted, i, requested, missing, cursor)
    requires !Passed(sorted[i], requested, cursor)
    ensures var start, end := Later(sorted[i].start, requested.start), Earlier(sorted[i].end, requested.end);
            SweptPast(sorted, i + 1, requested,
                      if start > cursor then missing + [TimeRange(cursor, start)] else missing, Later(end, cursor))
  {
    var start, end := Later(sorted[i].start, requested.start), Earlier(sorted[i].end, requested.end);
    if start > cursor {
      AddGap(sorted, i, requested, missing, TimeRange(cursor, start));
      SkipCovered(sorted, i, requested, missing + [TimeRange(cursor, start)], start, end);
    } else {
      SkipCovered(sorted, i, requested, missing, cursor, end);
    }
  }

  lemma SweepEnds(covered: seq<TimeRange>, sorted: seq<TimeRange>, requested: TimeRange, missing: seq<TimeRange>)
    requires Swept(sorted, requested, missing, requested.end) && forall r :: r in covered <==> r in sorted
    ensures IsMissing(covered, requested, missing)
  {
    forall t { CoversSameElements(covered, sorted, t); }
  }

  method SortByStart(covered: seq<TimeRange>) returns (sorted: seq<TimeRange>)
    ensures Sorted(sorted, StartsNoLater) && forall r :: r in covered <==> r in sorted
  {
    sorted := StableSort(covered, StartsNoLater);
    SortIsSorted(covered, StartsNoLater);
  }

  /** The cursor sweep of `Coverage::missing`. */
  method Missing(covered: seq<TimeRange>, requested: TimeRange) returns (missing: seq<TimeRange>)
    ensures IsMissing(covered, requested, missing)
  {
    var sorted := SortByStart(covered);
    var cursor := requested.start;
    missing := [];
    var i := 0;
    while i < |sorted|
      invariant 0 <= i <= |sorted|
      invariant SweptPast(sorted, i, requested, missing, cursor) && cursor < requested.end
    {
      var range := sorted[i];
      if range.end <= cursor || range.start >= requested.end {
        i := i + 1;
        continue;
      }
      OneRange(sorted, i, requested, missing, cursor);
      var start := Later(range.start, requested.start);
      var end := Earlier(range.end, requested.end);
      if start > cursor {
        missing := missing + [TimeRange(cursor, start)];
      }
      cursor := Later(end, cursor);
      if cursor >= requested.end {
        break;
      }
      i := i + 1;
    }
    if cursor < requested.end {
      AddGap(sorted, i, requested, missing, TimeRange(cursor, requested.end));
      missing := missing + [TimeRange(cursor, requested.end)];
    }
    SweepEnds(covered, sorted, requested, missing);
  }

  lemma CoversSome(ranges: seq<TimeRange>)
    ensures ranges != [] ==> Covers(ranges, ranges[0].start)
  {
    assert ranges != [] ==> ranges[0].Has(ranges[0].start);
  }

  /** The sweep has one possible answer: separated gaps are determined by the instants they cover. */
  lemma {:induction false} MissingIsUnique(a: seq<TimeRange>, b: seq<TimeRange>)
    requires Separated(a) && Separated(b)
    requires forall t :: Covers(a, t) <==> Covers(b, t)
    ensures a == b
  {
    if a == [] {
      CoversSome(b);
    } else if b == [] {
      CoversSome(a);
    } else {
      FirstGap(a, b);
      FirstGap(b, a);
      assert a[0] == b[0];
      forall t ensures Covers(a[1..], t) <==> Covers(b[1..], t) {
        TailCovers(a, t);
        TailCovers(b, t);
      }
      MissingIsUnique(a[1..], b[1..]);
    }
  }

  lemma TailCovers(a: seq<TimeRange>, t: int)
    requires a != [] && Separated(a)
    ensures Covers(a[1..], t) <==> Covers(a, t) && t >= a[0].end
  {
  }

  /** The first gap of `a` starts no earlier, and where both start together ends no later, than that of `b`. */
  lemma FirstGap(a: seq<TimeRange>, b: seq<TimeRange>)
    requires a != [] && b != [] && Separated(a) && Separated(b)
    requires forall t :: Covers(a, t) <==> Covers(b, t)
    ensures b[0].start <= a[0].start
    ensures b[0].start == a[0].start ==> a[0].end <= b[0].end
  {
    assert a[0].Has(a[0].start);
    assert Covers(a, a[0].start);
    var i :| 0 <= i < |b| && b[i].Has(a[0].start);
    assert i == 0 || b[0].end < b[i].start;
    assert forall k :: 0 < k < |b| ==> b[0].end < b[k].start;
    assert !Covers(b, b[0].end);
    assert !Covers(a, b[0].end);
    assert !a[0].Has(b[0].end);
  }

  /** Recording every fetched gap leaves nothing to fetch. */
  lemma RecordedGapsCloseTheRange(covered: seq<TimeRange>, requested: TimeRange, gaps: seq<TimeRange>,
                                  again: seq<TimeRange>)
    requires IsMissing(covered, requested, gaps)
    requires IsMissing(covered + gaps, requested, again)
    ensures again == []
  {
    if again != [] {
      var t := again[0].start;
      assert again[0].Has(t);
      assert Covers(again, t);
      CoversAppend(covered, gaps, t);
      assert false;
    }
  }
}
