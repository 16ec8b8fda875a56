/** What canonical rows are, in terms of the rows' own fields: their order, and which rows stand for which. */
module CanonicalRows {
  import opened Results
  import opened Sorting
  import opened HistoryRows

  /** Ascending in end time; within one end time universe rows by symbol and custom points by time. */
  ghost predicate InOrder(family: Family, rows: seq<Row>) {
    forall i, j :: 0 <= i < j < |rows| ==>
      && rows[i].endTime <= rows[j].endTime
      && (family == Universe && rows[i].endTime == rows[j].endTime ==> rows[i].symbol <= rows[j].symbol)
      && (family == CustomPoints && rows[i].endTime == rows[j].endTime ==> rows[i].time <= rows[j].time)
  }

  /** Records of one thing: bars that differ at most in payload and selecting instant, universe rows of one
      date and symbol. Custom points stand for themselves. */
  predicate Alike(family: Family, a: Row, b: Row) {
    match family
    case Bars => a == b.(at := a.at, payload := a.payload)
    case Universe => (a.endTime, a.symbol) == (b.endTime, b.symbol)
    case CustomPoints => a == b
  }

  lemma CanonicalIsInOrder(family: Family, rows: seq<Row>)
    ensures InOrder(family, Canonical(family, rows))
  {
    CanonicalRepresents(family, rows);
    var r := Canonical(family, rows);
    forall i, j | 0 <= i < j < |r| ensures Order(family)(r[i], r[j]) {
    }
  }

  // ---- Of records of one thing, the first delivered stays ----

  function FirstLike(family: Family, rows: seq<Row>, x: Row): Option<Row> {
    if rows == [] then None
    else if Alike(family, rows[0], x) then Some(rows[0])
    else FirstLike(family, rows[1..], x)
  }

  lemma {:induction false} FirstLikeAppend(family: Family, rows: seq<Row>, y: Row, x: Row)
    ensures FirstLike(family, rows + [y], x)
            == if FirstLike(family, rows, x).Some? then FirstLike(family, rows, x)
               else if Alike(family, y, x) then Some(y) else None
  {
    if rows == [] {
      assert [y][1..] == [];
    } else {
      assert (rows + [y])[1..] == rows[1..] + [y];
      FirstLikeAppend(family, rows[1..], y, x);
    }
  }

  lemma {:induction false} InsertKeepsFirst(family: Family, a: Row, s: seq<Row>, x: Row)
    ensures FirstLike(family, Insert(a, s, Order(family)), x) == FirstLike(family, [a] + s, x)
  {
    assert ([a] + s)[1..] == s;
    if s != [] && !Order(family)(a, s[0]) {
      InsertKeepsFirst(family, a, s[1..], x);
      assert ([a] + s[1..])[1..] == s[1..];
      assert !Alike(family, a, s[0]);
    }
  }

  lemma {:induction false} SortKeepsFirst(family: Family, rows: seq<Row>, x: Row)
    ensures FirstLike(family, StableSort(rows, Order(family)), x) == FirstLike(family, rows, x)
  {
    if rows != [] {
      SortKeepsFirst(family, rows[1..], x);
      var sorted := StableSort(rows[1..], Order(family));
      InsertKeepsFirst(family, rows[0], sorted, x);
      assert ([rows[0]] + sorted)[1..] == sorted;
    }
  }

  lemma {:induction false} DedupKeepsFirst(family: Family, s: seq<Row>, x: Row)
    ensures FirstLike(family, Dedup(family, s), x) == FirstLike(family, s, x)
  {
    if |s| > 1 {
      var p, y := s[..|s| - 1], s[|s| - 1];
      assert s == p + [y];
      DedupKeepsFirst(family, p, x);
      FirstLikeAppend(family, p, y, x);
      var kept := Dedup(family, p);
      FirstLikeAppend(family, kept, y, x);
      assert kept == kept[..|kept| - 1] + [kept[|kept| - 1]];
      FirstLikeAppend(family, kept[..|kept| - 1], kept[|kept| - 1], x);
    }
  }

  /** Sorting and de-duplicating loses no record, and of records of one thing it puts the first delivered
      first. */
  lemma CanonicalKeepsFirst(family: Family, rows: seq<Row>, x: Row)
    ensures FirstLike(family, Canonical(family, rows), x) == FirstLike(family, rows, x)
  {
    SortKeepsFirst(family, rows, x);
    DedupKeepsFirst(family, StableSort(rows, Order(family)), x);
  }

  // ---- What is dropped ----

  ghost predicate NeighboursDiffer(family: Family, rows: seq<Row>) {
    forall i :: 0 < i < |rows| ==> !Alike(family, rows[i - 1], rows[i])
  }

  ghost predicate NoTwoAlike(family: Family, rows: seq<Row>) {
    forall i, j :: 0 <= i < j < |rows| ==> !Alike(family, rows[i], rows[j])
  }

  lemma {:induction false} DedupNeighboursDiffer(family: Family, s: seq<Row>)
    requires family != CustomPoints
    ensures NeighboursDiffer(family, Dedup(family, s))
  {
    if |s| > 1 {
      DedupNeighboursDiffer(family, s[..|s| - 1]);
    }
  }

  /** No two neighbours of the canonical rows are records of one thing; of custom points nothing is dropped. */
  lemma CanonicalNeighboursDiffer(family: Family, rows: seq<Row>)
    ensures family != CustomPoints ==> NeighboursDiffer(family, Canonical(family, rows))
    ensures family == CustomPoints ==> multiset(Canonical(family, rows)) == multiset(rows)
  {
    var sorted := StableSort(rows, Order(family));
    if family == CustomPoints {
      OrderIsTotal(family);
      SortIsSorted(rows, Order(family));
      DedupRepresents(family, sorted);
    } else {
      DedupNeighboursDiffer(family, sorted);
    }
  }

  /** Universe rows of one date and symbol are neighbours, so one is left of each. */
  lemma UniverseHasOneOfEach(rows: seq<Row>)
    ensures NoTwoAlike(Universe, Canonical(Universe, rows))
  {
    UniverseHasOneIdentityPerKey(rows);
    CanonicalIsStrict(Universe, rows);
    var r := Canonical(Universe, rows);
    forall i, j | 0 <= i < j < |r| ensures !Alike(Universe, r[i], r[j]) {
      assert !SameIdentity(Universe, r[i], r[j]);
    }
  }
}
