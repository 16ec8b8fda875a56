/** Canonical rows: how a row family is ordered and which neighbouring rows are duplicates. */
module HistoryRows {
  import opened Sorting
  import opened Coverage

  /** `at` is the instant by which a range request selects the row. */
  datatype Row = Row(symbol: int, venue: int, time: int, endTime: int, at: int, payload: int)

  /** Trade and quote bars share one rule, as do the universe families. */
  datatype Family = Bars | Universe | CustomPoints

  predicate BarsLe(a: Row, b: Row) { a.endTime <= b.endTime }
  predicate UniverseLe(a: Row, b: Row) { a.endTime < b.endTime || (a.endTime == b.endTime && a.symbol <= b.symbol) }
  predicate CustomLe(a: Row, b: Row) { a.endTime < b.endTime || (a.endTime == b.endTime && a.time <= b.time) }

  function Order(family: Family): (Row, Row) -> bool {
    match family
    case Bars => BarsLe
    case Universe => UniverseLe
    case CustomPoints => CustomLe
  }

  /** The closure handed to `dedup_by`; custom points are never de-duplicated. */
  predicate SameIdentity(family: Family, a: Row, b: Row) {
    match family
    case Bars => a.symbol == b.symbol && a.venue == b.venue && a.time == b.time && a.endTime == b.endTime
    case Universe => a.endTime == b.endTime && a.symbol == b.symbol
    case CustomPoints => false
  }

  /** `Vec::dedup_by`: drop a row that equals the last one retained. */
  function Dedup(family: Family, s: seq<Row>): (r: seq<Row>)
    ensures r == [] <==> s == []
  {
    if |s| <= 1 then s
    else
      var kept := Dedup(family, s[..|s| - 1]);
      var x := s[|s| - 1];
      if SameIdentity(family, x, kept[|kept| - 1]) then kept else kept + [x]
  }

  /** `HistoricalData::sort_and_deduplicate`. */
  function Canonical(family: Family, rows: seq<Row>): seq<Row> {
    Dedup(family, StableSort(rows, Order(family)))
  }

  ghost predicate DuplicateFree(family: Family, s: seq<Row>) {
    forall i, j :: 0 <= i < j < |s| ==> !SameIdentity(family, s[i], s[j])
  }

  /** `r` lists every identity of `s`, and nothing that is not a row of `s`. */
  ghost predicate Represents(family: Family, s: seq<Row>, r: seq<Row>) {
    && (forall x :: x in r ==> x in s)
    && (forall x :: x in s ==> x in r || exists y :: y in r && SameIdentity(family, x, y))
  }

  lemma OrderIsTotal(family: Family)
    ensures TotalPreorder(Order(family))
  {
  }

  lemma LastExceedsAll(family: Family, p: seq<Row>, x: Row, kept: seq<Row>)
    requires Sorted(p + [x], Order(family)) && forall y :: y in kept ==> y in p
    ensures forall y :: y in kept ==> Order(family)(y, x)
  {
    var s := p + [x];
    forall y | y in kept ensures Order(family)(y, x) {
      var i :| 0 <= i < |p| && p[i] == y;
      assert Order(family)(s[i], s[|s| - 1]);
    }
  }

  lemma {:induction false} DedupIsSorted(family: Family, s: seq<Row>)
    requires Sorted(s, Order(family))
    ensures Sorted(Dedup(family, s), Order(family)) && forall x :: x in Dedup(family, s) ==> x in s
  {
    if |s| > 1 {
      var p, x := s[..|s| - 1], s[|s| - 1];
      assert s == p + [x];
      DedupIsSorted(family, p);
      LastExceedsAll(family, p, x, Dedup(family, p));
    }
  }

  lemma RepresentsOneMore(family: Family, s: seq<Row>, kept: seq<Row>)
    requires s != [] && kept != [] && Represents(family, s[..|s| - 1], kept)
    ensures if SameIdentity(family, s[|s| - 1], kept[|kept| - 1]) then Represents(family, s, kept)
            else Represents(family, s, kept + [s[|s| - 1]])
  {
    assert kept[|kept| - 1] in kept;
    forall x ensures x in s <==> x in s[..|s| - 1] || x == s[|s| - 1] {
      LastOrBefore(s, x);
    }
  }

  lemma LastOrBefore(s: seq<Row>, x: Row)
    requires s != []
    ensures x in s <==> x in s[..|s| - 1] || x == s[|s| - 1]
  {
    assert s == s[..|s| - 1] + [s[|s| - 1]];
  }

  lemma {:induction false} DedupRepresents(family: Family, s: seq<Row>)
    requires Sorted(s, Order(family))
    ensures Represents(family, s, Dedup(family, s))
    ensures Sorted(Dedup(family, s), Order(family))
    ensures s != [] && family != CustomPoints ==>
              SameIdentity(family, s[|s| - 1], Dedup(family, s)[|Dedup(family, s)| - 1])
    ensures family == CustomPoints ==> Dedup(family, s) == s
  {
    DedupIsSorted(family, s);
    if |s| > 1 {
      PrefixIsSorted(family, s);
      DedupRepresents(family, s[..|s| - 1]);
      DedupStep(family, s);
    }
  }

  lemma PrefixIsSorted(family: Family, s: seq<Row>)
    requires |s| > 1 && Sorted(s, Order(family))
    ensures Sorted(s[..|s| - 1], Order(family))
  {
  }

  lemma DedupUnfolds(family: Family, s: seq<Row>)
    requires |s| > 1
    ensures var kept, x := Dedup(family, s[..|s| - 1]), s[|s| - 1];
            Dedup(family, s) == if SameIdentity(family, x, kept[|kept| - 1]) then kept else kept + [x]
  {
  }

  lemma DedupStep(family: Family, s: seq<Row>)
    requires |s| > 1 && Represents(family, s[..|s| - 1], Dedup(family, s[..|s| - 1]))
    requires family == CustomPoints ==> Dedup(family, s[..|s| - 1]) == s[..|s| - 1]
    ensures Represents(family, s, Dedup(family, s))
    ensures family != CustomPoints ==> SameIdentity(family, s[|s| - 1], Dedup(family, s)[|Dedup(family, s)| - 1])
    ensures family == CustomPoints ==> Dedup(family, s) == s
  {
    DedupUnfolds(family, s);
    RepresentsOneMore(family, s, Dedup(family, s[..|s| - 1]));
    LastIsKept(family, s, Dedup(family, s[..|s| - 1]));
  }

  lemma LastIsKept(family: Family, s: seq<Row>, kept: seq<Row>)
    requires s != [] && kept != []
    ensures var last := s[|s| - 1];
            if family == CustomPoints then !SameIdentity(family, last, kept[|kept| - 1])
            else SameIdentity(family, last, last)
    ensures s[..|s| - 1] + [s[|s| - 1]] == s
  {
  }

  lemma CanonicalRepresents(family: Family, rows: seq<Row>)
    ensures Sorted(Canonical(family, rows), Order(family))
    ensures Represents(family, rows, Canonical(family, rows))
  {
    OrderIsTotal(family);
    SortIsSorted(rows, Order(family));
    DedupRepresents(family, StableSort(rows, Order(family)));
  }

  /** One identity per sort key: always so for universe rows, whose sort key is the identity. */
  ghost predicate OneIdentityPerKey(family: Family, rows: seq<Row>) {
    forall x, y :: x in rows && y in rows && Order(family)(x, y) && Order(family)(y, x)
                   ==> SameIdentity(family, x, y)
  }

  lemma UniverseHasOneIdentityPerKey(rows: seq<Row>)
    ensures OneIdentityPerKey(Universe, rows)
  {
  }

  lemma NewKeyIsLater(family: Family, s: seq<Row>, last: Row)
    requires s != [] && Sorted(s, Order(family)) && OneIdentityPerKey(family, s)
    requires last in s[..|s| - 1] && !SameIdentity(family, s[|s| - 1], last)
    ensures !Order(family)(s[|s| - 1], last)
  {
    var k :| 0 <= k < |s| - 1 && s[k] == last;
    assert Order(family)(s[k], s[|s| - 1]);
    assert s[k] in s && s[|s| - 1] in s;
  }

  lemma StrictOneMore(family: Family, s: seq<Row>, kept: seq<Row>)
    requires s != [] && Sorted(s, Order(family)) && OneIdentityPerKey(family, s)
    requires kept != [] && StrictlySorted(kept, Order(family)) && kept[|kept| - 1] in s[..|s| - 1]
    ensures SameIdentity(family, s[|s| - 1], kept[|kept| - 1]) || StrictlySorted(kept + [s[|s| - 1]], Order(family))
  {
    var x, last := s[|s| - 1], kept[|kept| - 1];
    if !SameIdentity(family, x, last) {
      OrderIsTotal(family);
      NewKeyIsLater(family, s, last);
      StrictAppend(kept, x, Order(family));
    }
  }

  lemma PrefixOfSorted(family: Family, s: seq<Row>)
    requires |s| > 1 && Sorted(s, Order(family)) && OneIdentityPerKey(family, s)
    ensures Sorted(s[..|s| - 1], Order(family)) && OneIdentityPerKey(family, s[..|s| - 1])
  {
    PrefixIsSorted(family, s);
  }

  lemma {:induction false} DedupIsStrict(family: Family, s: seq<Row>)
    requires Sorted(s, Order(family)) && OneIdentityPerKey(family, s)
    ensures StrictlySorted(Dedup(family, s), Order(family))
  {
    if |s| > 1 {
      PrefixOfSorted(family, s);
      DedupIsStrict(family, s[..|s| - 1]);
      StrictStep(family, s);
    }
  }

  lemma StrictStep(family: Family, s: seq<Row>)
    requires |s| > 1 && Sorted(s, Order(family)) && OneIdentityPerKey(family, s)
    requires Sorted(s[..|s| - 1], Order(family)) && StrictlySorted(Dedup(family, s[..|s| - 1]), Order(family))
    ensures StrictlySorted(Dedup(family, s), Order(family))
  {
    var kept := Dedup(family, s[..|s| - 1]);
    DedupIsSorted(family, s[..|s| - 1]);
    DedupUnfolds(family, s);
    assert kept[|kept| - 1] in kept;
    StrictOneMore(family, s, kept);
  }

  /** With one identity per key the canonical rows are strictly ordered, hence duplicate free. */
  lemma CanonicalIsStrict(family: Family, rows: seq<Row>)
    requires OneIdentityPerKey(family, rows)
    ensures StrictlySorted(Canonical(family, rows), Order(family))
    ensures DuplicateFree(family, Canonical(family, rows))
  {
    OrderIsTotal(family);
    SortIsSorted(rows, Order(family));
    DedupIsStrict(family, StableSort(rows, Order(family)));
  }

  // ---- Exactly when the adjacent de-duplication of bars leaves no duplicate ----

  /** The rows that end at `key`, in input order. */
  function EndingAt(rows: seq<Row>, key: int): seq<Row> {
    if rows == [] then []
    else
      var p, x := rows[..|rows| - 1], rows[|rows| - 1];
      if x.endTime == key then EndingAt(p, key) + [x] else EndingAt(p, key)
  }

  lemma {:induction false} EndingAtMembers(rows: seq<Row>, key: int)
    ensures forall x :: x in EndingAt(rows, key) <==> x in rows && x.endTime == key
  {
    if rows != [] {
      assert rows == rows[..|rows| - 1] + [rows[|rows| - 1]];
      EndingAtMembers(rows[..|rows| - 1], key);
    }
  }

  /** An identity comes back after a different one: A, B, A. */
  ghost predicate Alternates(t: seq<Row>) {
    exists i, j, k :: 0 <= i < j < k < |t| && SameIdentity(Bars, t[i], t[k]) && !SameIdentity(Bars, t[i], t[j])
  }

  lemma {:induction false} EndingAtCons(x: Row, s: seq<Row>, key: int)
    ensures EndingAt([x] + s, key) == (if x.endTime == key then [x] else []) + EndingAt(s, key)
  {
    if s == [] {
      assert [x] + s == [x];
    } else {
      var p, y := s[..|s| - 1], s[|s| - 1];
      assert ([x] + s)[..|s|] == [x] + p;
      EndingAtCons(x, p, key);
    }
  }

  lemma {:induction false} InsertIsStable(x: Row, s: seq<Row>, key: int)
    requires Sorted(s, BarsLe)
    ensures EndingAt(Insert(x, s, BarsLe), key) == EndingAt([x] + s, key)
  {
    if s != [] && !BarsLe(x, s[0]) {
      var head, tail := s[0], s[1..];
      var rest := Insert(x, tail, BarsLe);
      calc {
        EndingAt(Insert(x, s, BarsLe), key);
        EndingAt([head] + rest, key);
        { EndingAtCons(head, rest, key); }
        (if head.endTime == key then [head] else []) + EndingAt(rest, key);
        { InsertIsStable(x, tail, key); EndingAtCons(x, tail, key); }
        (if head.endTime == key then [head] else []) + ((if x.endTime == key then [x] else []) + EndingAt(tail, key));
        (if x.endTime == key then [x] else []) + ((if head.endTime == key then [head] else []) + EndingAt(tail, key));
        { EndingAtCons(head, tail, key); assert s == [head] + tail; }
        (if x.endTime == key then [x] else []) + EndingAt(s, key);
        { EndingAtCons(x, s, key); }
        EndingAt([x] + s, key);
      }
    }
  }

  lemma {:induction false} SortIsStable(rows: seq<Row>, key: int)
    ensures EndingAt(StableSort(rows, BarsLe), key) == EndingAt(rows, key)
  {
    if rows != [] {
      SortIsStable(rows[1..], key);
      OrderIsTotal(Bars);
      SortIsSorted(rows[1..], BarsLe);
      InsertIsStable(rows[0], StableSort(rows[1..], BarsLe), key);
      EndingAtCons(rows[0], StableSort(rows[1..], BarsLe), key);
      EndingAtCons(rows[0], rows[1..], key);
      assert rows == [rows[0]] + rows[1..];
    }
  }

  lemma AlternatesAppend(t: seq<Row>, x: Row)
    requires t != []
    ensures Alternates(t + [x]) <==>
              Alternates(t) || ((exists i :: 0 <= i < |t| && SameIdentity(Bars, t[i], x))
                  && !SameIdentity(Bars, x, t[|t| - 1]))
  {
    if !Alternates(t + [x]) {
      AlternatesAfter(t, x);
    } else if !Alternates(t) {
      AlternatesBefore(t, x);
    }
  }

  lemma AlternatesBefore(t: seq<Row>, x: Row)
    requires t != [] && Alternates(t + [x]) && !Alternates(t)
    ensures (exists i :: 0 <= i < |t| && SameIdentity(Bars, t[i], x)) && !SameIdentity(Bars, x, t[|t| - 1])
  {
    var u := t + [x];
    var i, j, k :| 0 <= i < j < k < |u| && SameIdentity(Bars, u[i], u[k]) && !SameIdentity(Bars, u[i], u[j]);
    assert k == |t|;
    assert SameIdentity(Bars, t[i], x);
    assert j < |t| - 1 ==> !SameIdentity(Bars, t[i], t[|t| - 1]);
  }

  lemma AlternatesAfter(t: seq<Row>, x: Row)
    requires t != [] && !Alternates(t + [x])
    ensures !Alternates(t)
    ensures SameIdentity(Bars, x, t[|t| - 1]) || forall i :: 0 <= i < |t| ==> !SameIdentity(Bars, t[i], x)
  {
    var u := t + [x];
    assert forall i :: 0 <= i < |t| ==> u[i] == t[i];
    if i :| 0 <= i < |t| && SameIdentity(Bars, t[i], x) {
      if !SameIdentity(Bars, x, t[|t| - 1]) {
        assert SameIdentity(Bars, u[i], u[|t|]) && !SameIdentity(Bars, u[i], u[|t| - 1]);
      }
    }
  }

  ghost predicate NoAlternation(rows: seq<Row>) {
    forall key :: !Alternates(EndingAt(rows, key))
  }

  /** `x` repeats an identity of `p` that is not the one `p` ends with. */
  ghost predicate ComesBack(p: seq<Row>, x: Row)
    requires p != []
  {
    !SameIdentity(Bars, x, p[|p| - 1]) && exists y :: y in p && SameIdentity(Bars, y, x)
  }

  lemma LastEndingAt(p: seq<Row>, key: int)
    requires p != [] && Sorted(p, BarsLe) && p[|p| - 1].endTime <= key
    ensures EndingAt(p, key) != [] ==> EndingAt(p, key)[|EndingAt(p, key)| - 1] == p[|p| - 1]
  {
    EndingAtMembers(p, key);
    var t := EndingAt(p, key);
    if t != [] {
      assert t[0] in t;
      var i :| 0 <= i < |p| && p[i] == t[0];
      assert BarsLe(p[i], p[|p| - 1]);
    }
  }

  /** One more row on a sorted sequence: both sides of the characterisation change together. */
  lemma OneMoreRow(p: seq<Row>, x: Row)
    requires p != [] && Sorted(p, BarsLe) && BarsLe(p[|p| - 1], x)
    ensures Alternates(EndingAt(p + [x], x.endTime)) <==> Alternates(EndingAt(p, x.endTime)) || ComesBack(p, x)
  {
    var key := x.endTime;
    var t := EndingAt(p, key);
    EndingAtMembers(p, key);
    assert (p + [x])[..|p|] == p;
    assert EndingAt(p + [x], key) == t + [x];
    if t == [] {
      assert [] + [x] == [x];
    } else {
      LastEndingAt(p, key);
      AlternatesAppend(t, x);
      if y :| y in p && SameIdentity(Bars, y, x) {
        assert y in t;
      }
      if i :| 0 <= i < |t| && SameIdentity(Bars, t[i], x) {
        assert t[i] in t;
      }
    }
  }

  lemma DedupOneMoreRow(p: seq<Row>, x: Row)
    requires p != [] && Sorted(p, BarsLe)
    ensures DuplicateFree(Bars, Dedup(Bars, p + [x])) <==> DuplicateFree(Bars, Dedup(Bars, p)) && !ComesBack(p, x)
  {
    assert (p + [x])[..|p|] == p;
    DedupRepresents(Bars, p);
    var kept := Dedup(Bars, p);
    DedupAppendFree(kept, x);
    RepresentedIdentity(p, kept, x);
    assert SameIdentity(Bars, x, kept[|kept| - 1]) <==> SameIdentity(Bars, x, p[|p| - 1]);
  }

  /** An identity occurs among the rows exactly when it occurs among the rows that represent them. */
  lemma RepresentedIdentity(p: seq<Row>, kept: seq<Row>, x: Row)
    requires Represents(Bars, p, kept)
    ensures (exists y :: y in p && SameIdentity(Bars, y, x)) <==> exists z :: z in kept && SameIdentity(Bars, z, x)
  {
    if y :| y in p && SameIdentity(Bars, y, x) {
      if y !in kept {
        var z :| z in kept && SameIdentity(Bars, y, z);
        assert SameIdentity(Bars, z, x);
      }
    }
  }

  lemma {:induction false} SortedDuplicates(s: seq<Row>)
    requires Sorted(s, BarsLe)
    ensures DuplicateFree(Bars, Dedup(Bars, s)) <==> NoAlternation(s)
  {
    if |s| <= 1 {
      forall key ensures |EndingAt(s, key)| <= 1 {
        if s != [] {
          assert EndingAt(s[..0], key) == [];
        }
      }
    } else {
      var p, x := s[..|s| - 1], s[|s| - 1];
      assert s == p + [x];
      SortedDuplicates(p);
      OneMoreRow(p, x);
      DedupOneMoreRow(p, x);
      assert forall k :: k != x.endTime ==> EndingAt(s, k) == EndingAt(p, k);
      if NoAlternation(p) && !ComesBack(p, x) {
        assert NoAlternation(s);
      } else if ComesBack(p, x) {
        assert !NoAlternation(s);
      } else {
        var k :| Alternates(EndingAt(p, k));
        assert Alternates(EndingAt(s, k));
      }
    }
  }

  lemma DedupAppendFree(kept: seq<Row>, x: Row)
    ensures DuplicateFree(Bars, kept + [x])
            <==> DuplicateFree(Bars, kept) && forall z :: z in kept ==> !SameIdentity(Bars, z, x)
  {
    var u := kept + [x];
    if DuplicateFree(Bars, u) {
      forall i, j | 0 <= i < j < |kept| ensures !SameIdentity(Bars, kept[i], kept[j]) {
        assert !SameIdentity(Bars, u[i], u[j]);
      }
      forall z | z in kept ensures !SameIdentity(Bars, z, x) {
        var i :| 0 <= i < |kept| && kept[i] == z;
        assert !SameIdentity(Bars, u[i], u[|kept|]);
      }
    }
  }

  /** Bars come out duplicate free exactly when no identity alternates with another at one end time. */
  lemma BarsDuplicateFreeIff(rows: seq<Row>)
    ensures DuplicateFree(Bars, Canonical(Bars, rows)) <==> NoAlternation(rows)
  {
    OrderIsTotal(Bars);
    SortIsSorted(rows, BarsLe);
    var sorted := StableSort(rows, BarsLe);
    SortedDuplicates(sorted);
    forall key ensures Alternates(EndingAt(rows, key)) <==> Alternates(EndingAt(sorted, key)) {
      SortIsStable(rows, key);
    }
  }

  // ---- What any answer to a range request becomes ----

  /** `rows` holds exactly the series' rows of `range`, in any order and with any repetition. */
  ghost predicate Answers(series: set<Row>, range: TimeRange, rows: seq<Row>) {
    forall x :: x in rows <==> x in series && range.Has(x.at)
  }

  /** The series publishes one row per identity. */
  ghost predicate OneRowPerIdentity(family: Family, series: set<Row>) {
    forall x, y :: x in series && y in series && SameIdentity(family, x, y) ==> x == y
  }

  /** A sort key names one row of the series. */
  ghost predicate KeyDistinct(family: Family, series: set<Row>) {
    forall x, y :: x in series && y in series && Order(family)(x, y) && Order(family)(y, x) ==> x == y
  }

  /** Universe rows sort by their identity, so one row per identity is one row per key. */
  lemma UniverseKeysAreDistinct(series: set<Row>)
    requires OneRowPerIdentity(Universe, series)
    ensures KeyDistinct(Universe, series)
  {
  }

  /** De-duplication loses no row of such a series. */
  lemma CanonicalKeepsRows(family: Family, series: set<Row>, rows: seq<Row>)
    requires OneRowPerIdentity(family, series)
    requires forall x :: x in rows ==> x in series
    ensures forall x :: x in Canonical(family, rows) <==> x in rows
    ensures Sorted(Canonical(family, rows), Order(family))
  {
    CanonicalRepresents(family, rows);
  }

  /** Every complete answer has the same canonical form: the strictly ordered list of the rows in range. */
  lemma AnswersAgree(family: Family, series: set<Row>, range: TimeRange, a: seq<Row>, b: seq<Row>)
    requires OneRowPerIdentity(family, series) && KeyDistinct(family, series) && family != CustomPoints
    requires Answers(series, range, a) && Answers(series, range, b)
    ensures Canonical(family, a) == Canonical(family, b)
    ensures StrictlySorted(Canonical(family, a), Order(family))
  {
    AnswerIsStrict(family, series, range, a);
    AnswerIsStrict(family, series, range, b);
    CanonicalKeepsRows(family, series, a);
    CanonicalKeepsRows(family, series, b);
    StrictlySortedIsUnique(Canonical(family, a), Canonical(family, b), Order(family));
  }

  lemma AnswerIsStrict(family: Family, series: set<Row>, range: TimeRange, a: seq<Row>)
    requires KeyDistinct(family, series) && family != CustomPoints
    requires Answers(series, range, a)
    ensures StrictlySorted(Canonical(family, a), Order(family))
  {
    forall x, y | x in a && y in a && Order(family)(x, y) && Order(family)(y, x)
      ensures SameIdentity(family, x, y)
    {
      assert x == y;
    }
    CanonicalIsStrict(family, a);
  }

  // ---- When every answer comes out without duplicates ----

  /** Rows of the series in the range. */
  ghost function RowsIn(series: set<Row>, range: TimeRange): set<Row> { set x | x in series && range.Has(x.at) }

  /** No two identities of the series in the range end together. */
  ghost predicate OneIdentityPerEnd(series: set<Row>, range: TimeRange) {
    forall x, y :: x in RowsIn(series, range) && y in RowsIn(series, range) && x.endTime == y.endTime
        ==> SameIdentity(Bars, x, y)
  }

  ghost function Listed(rows: set<Row>): (s: seq<Row>)
    ensures forall x :: x in s <==> x in rows
  {
    if rows == {} then [] else
      var x :| x in rows;
      [x] + Listed(rows - {x})
  }

  /** However a provider orders and repeats its bars: every complete answer to the range comes out without
      duplicates if and only if no two identities of the series in that range end together. */
  lemma EveryAnswerDuplicateFreeIff(series: set<Row>, range: TimeRange)
    ensures (forall rows :: Answers(series, range, rows) ==> DuplicateFree(Bars, Canonical(Bars, rows)))
            <==> OneIdentityPerEnd(series, range)
  {
    if OneIdentityPerEnd(series, range) {
      forall rows | Answers(series, range, rows) ensures DuplicateFree(Bars, Canonical(Bars, rows)) {
        AnswerHasOneIdentityPerKey(series, range, rows);
        CanonicalIsStrict(Bars, rows);
      }
    } else {
      SomeAnswerAlternates(series, range);
    }
  }

  lemma SomeAnswerAlternates(series: set<Row>, range: TimeRange)
    requires !OneIdentityPerEnd(series, range)
    ensures exists rows :: Answers(series, range, rows) && !DuplicateFree(Bars, Canonical(Bars, rows))
  {
    var x, y :| x in RowsIn(series, range) && y in RowsIn(series, range) && x.endTime == y.endTime
        && !SameIdentity(Bars, x, y);
    var rest := Listed(RowsIn(series, range));
    AlternationIsAnAnswer(series, range, x, y, rest);
    AlternationShows(x, y, rest);
  }

  lemma AnswerHasOneIdentityPerKey(series: set<Row>, range: TimeRange, rows: seq<Row>)
    requires OneIdentityPerEnd(series, range) && Answers(series, range, rows)
    ensures OneIdentityPerKey(Bars, rows)
  {
    forall x | x in rows ensures x in RowsIn(series, range) {
    }
  }

  lemma AlternationIsAnAnswer(series: set<Row>, range: TimeRange, x: Row, y: Row, rest: seq<Row>)
    requires x in RowsIn(series, range) && y in RowsIn(series, range)
    requires forall z :: z in rest <==> z in RowsIn(series, range)
    ensures Answers(series, range, [x] + ([y] + ([x] + rest)))
  {
  }

  /** Two identities that end together, the first delivered again after the second: both copies stay. */
  lemma AlternationShows(x: Row, y: Row, rest: seq<Row>)
    requires x.endTime == y.endTime && !SameIdentity(Bars, x, y)
    ensures !DuplicateFree(Bars, Canonical(Bars, [x] + ([y] + ([x] + rest))))
  {
    var key := x.endTime;
    EndingAtCons(x, rest, key);
    EndingAtCons(y, [x] + rest, key);
    EndingAtCons(x, [y] + ([x] + rest), key);
    var t := EndingAt([x] + ([y] + ([x] + rest)), key);
    assert t == [x] + ([y] + ([x] + EndingAt(rest, key)));
    assert SameIdentity(Bars, t[0], t[2]) && !SameIdentity(Bars, t[0], t[1]);
    assert Alternates(t);
    BarsDuplicateFreeIff([x] + ([y] + ([x] + rest)));
  }

  /** One venue's bar, another venue's, and the first again, all of one minute. */
  lemma AlternatingVenuesStay()
    ensures var a, b := Row(1, 1, 0, 60, 60, 0), Row(1, 2, 0, 60, 60, 0);
            !DuplicateFree(Bars, Canonical(Bars, [a, b, a]))
  {
    var a, b := Row(1, 1, 0, 60, 60, 0), Row(1, 2, 0, 60, 60, 0);
    AlternationShows(a, b, []);
    assert [a] + ([b] + ([a] + [])) == [a, b, a];
  }
}
