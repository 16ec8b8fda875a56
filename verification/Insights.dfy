/** Insights filed by symbol, and what closing some of them takes and leaves. */
module Insights {
  import opened OrderedKeys

  const MAX_CLOSED_HISTORY := 50_000
  const SECOND := 1_000_000_000

  /** `id` is allocated once and never changes; `sid` is the symbol's. */
  datatype Insight = Insight(id: nat, sid: int, source: string, generated: int, closeTime: int, period: int,
                             isFinal: bool) {
    predicate IsExpired(now: int) { now > closeTime }

    predicate IsActive(now: int) { !IsExpired(now) }

    /** `expire`: cut short to the second before now. */
    function CutShort(now: int): Insight {
      if IsActive(now) then this.(closeTime := now - SECOND, period := now - SECOND - generated) else this
    }
  }

  /** The three ways insights close: past their time, by their model's flat signal, with their symbol. */
  datatype Closing = Expired(now: int) | Flat(source: string, now: int) | Cleared {
    predicate Takes(i: Insight) {
      match this
      case Expired(now) => i.IsExpired(now)
      case Flat(source, _) => i.source == source
      case Cleared => true
    }

    function Final(i: Insight): Insight {
      var closed := if Flat? && i.closeTime > now then i.(closeTime := now) else i;
      closed.(isFinal := true)
    }
  }

  function Taken(c: Closing, s: seq<Insight>): seq<Insight> {
    if s == [] then [] else
      Taken(c, s[..|s| - 1]) + if c.Takes(s[|s| - 1]) then [c.Final(s[|s| - 1])] else []
  }

  function Left(c: Closing, s: seq<Insight>): seq<Insight> {
    if s == [] then [] else
      Left(c, s[..|s| - 1]) + if c.Takes(s[|s| - 1]) then [] else [s[|s| - 1]]
  }

  type Filing = map<int, seq<Insight>>

  function At(m: Filing, sid: int): seq<Insight> { if sid in m then m[sid] else [] }

  ghost predicate AllOf(s: seq<Insight>, sid: int) { forall i :: 0 <= i < |s| ==> s[i].sid == sid }

  /** Every insight is under its own symbol, and no symbol has an empty list. */
  ghost predicate Filed(m: Filing) { forall sid :: sid in m ==> m[sid] != [] && AllOf(m[sid], sid) }

  function Put(m: Filing, sid: int, s: seq<Insight>): Filing { if s == [] then m - {sid} else m[sid := s] }

  lemma PutAt(m: Filing, sid: int, s: seq<Insight>, other: int)
    ensures At(Put(m, sid, s), other) == if other == sid then s else At(m, other)
  {
  }

  function Pushed(m: Filing, i: Insight): Filing { m[i.sid := At(m, i.sid) + [i]] }

  function Flattened(m: Filing, keys: seq<int>): seq<Insight> {
    if keys == [] then [] else Flattened(m, keys[..|keys| - 1]) + At(m, keys[|keys| - 1])
  }

  /** Every filed insight, symbols in order: `values().flatten()`. */
  ghost function InOrder(m: Filing): seq<Insight> { Flattened(m, Listing(m.Keys)) }

  lemma {:induction false} TakenConcat(c: Closing, a: seq<Insight>, b: seq<Insight>)
    ensures Taken(c, a + b) == Taken(c, a) + Taken(c, b)
    decreases |b|
  {
    if b == [] {
      assert a + b == a;
    } else {
      assert (a + b)[..|a + b| - 1] == a + b[..|b| - 1];
      TakenConcat(c, a, b[..|b| - 1]);
    }
  }

  lemma {:induction false} LeftConcat(c: Closing, a: seq<Insight>, b: seq<Insight>)
    ensures Left(c, a + b) == Left(c, a) + Left(c, b)
    decreases |b|
  {
    if b == [] {
      assert a + b == a;
    } else {
      assert (a + b)[..|a + b| - 1] == a + b[..|b| - 1];
      LeftConcat(c, a, b[..|b| - 1]);
    }
  }

  ghost predicate AllFinal(s: seq<Insight>) { forall i :: 0 <= i < |s| ==> s[i].isFinal }

  lemma {:induction false} TakenIsFinal(c: Closing, s: seq<Insight>)
    ensures AllFinal(Taken(c, s))
  {
    if s != [] { TakenIsFinal(c, s[..|s| - 1]); }
  }

  lemma {:induction false} StayFiled(c: Closing, s: seq<Insight>, sid: int)
    requires AllOf(s, sid)
    ensures AllOf(Taken(c, s), sid) && AllOf(Left(c, s), sid)
  {
    if s != [] { StayFiled(c, s[..|s| - 1], sid); }
  }

  // ---- Conservation ----

  function Single(i: Insight, sid: int): multiset<nat> { if i.sid == sid then multiset{i.id} else multiset{} }

  /** The ids of a symbol's insights. */
  function Tally(s: seq<Insight>, sid: int): multiset<nat> {
    if s == [] then multiset{} else
      Tally(s[..|s| - 1], sid) + Single(s[|s| - 1], sid)
  }

  /** Each symbol's added insights are its active ones and its closed ones, none lost or doubled. */
  ghost predicate Conserved(m: Filing, closings: seq<Insight>, added: seq<Insight>) {
    forall sid {:trigger ConservedAt(At(m, sid), closings, added, sid)} :: ConservedAt(At(m, sid), closings, added, sid)
  }

  ghost predicate ConservedAt(active: seq<Insight>, closings: seq<Insight>, added: seq<Insight>, sid: int) {
    Tally(active, sid) + Tally(closings, sid) == Tally(added, sid)
  }

  lemma {:induction false} TallyConcat(a: seq<Insight>, b: seq<Insight>, sid: int)
    ensures Tally(a + b, sid) == Tally(a, sid) + Tally(b, sid)
    decreases |b|
  {
    if b == [] {
      assert a + b == a;
    } else {
      assert (a + b)[..|a + b| - 1] == a + b[..|b| - 1];
      TallyConcat(a, b[..|b| - 1], sid);
    }
  }

  lemma {:induction false} TallyTakenAndLeft(c: Closing, s: seq<Insight>, sid: int)
    ensures Tally(Taken(c, s), sid) + Tally(Left(c, s), sid) == Tally(s, sid)
  {
    if s != [] {
      TallyTakenAndLeft(c, s[..|s| - 1], sid);
      TallyOneMore(c, s, sid);
    }
  }

  lemma TallyOneMore(c: Closing, s: seq<Insight>, sid: int)
    requires s != []
    requires var most := s[..|s| - 1]; Tally(Taken(c, most), sid) + Tally(Left(c, most), sid) == Tally(most, sid)
    ensures Tally(Taken(c, s), sid) + Tally(Left(c, s), sid) == Tally(s, sid)
  {
    var most, last := s[..|s| - 1], s[|s| - 1];
    var taken, left, one := Tally(Taken(c, most), sid), Tally(Left(c, most), sid), Single(last, sid);
    TallyTaken(c, s, sid);
    TallyLeft(c, s, sid);
    Shuffle(taken, left, one, Tally(most, sid));
  }

  lemma TallyTaken(c: Closing, s: seq<Insight>, sid: int)
    requires s != []
    ensures var most, last := s[..|s| - 1], s[|s| - 1];
            Tally(Taken(c, s), sid)
            == if c.Takes(last) then Tally(Taken(c, most), sid) + Single(last, sid) else Tally(Taken(c, most), sid)
  {
    var most, last := s[..|s| - 1], s[|s| - 1];
    TallyPush(Taken(c, most), c.Final(last), sid);
    assert Taken(c, most) + [] == Taken(c, most);
  }

  lemma TallyLeft(c: Closing, s: seq<Insight>, sid: int)
    requires s != []
    ensures var most, last := s[..|s| - 1], s[|s| - 1];
            Tally(Left(c, s), sid)
            == if c.Takes(last) then Tally(Left(c, most), sid) else Tally(Left(c, most), sid) + Single(last, sid)
  {
    var most, last := s[..|s| - 1], s[|s| - 1];
    TallyPush(Left(c, most), last, sid);
    assert Left(c, most) + [] == Left(c, most);
  }

  lemma Shuffle(a: multiset<nat>, b: multiset<nat>, one: multiset<nat>, all: multiset<nat>)
    requires a + b == all
    ensures a + one + b == all + one && a + (b + one) == all + one
  {
  }

  lemma TallyPush(s: seq<Insight>, i: Insight, sid: int)
    ensures Tally(s + [i], sid) == Tally(s, sid) + Single(i, sid)
  {
    assert (s + [i])[..|s|] == s;
  }

  lemma OneTally(i: Insight, sid: int)
    ensures Tally([i], sid) == Single(i, sid)
  {
  }

  lemma {:induction false} TallyElsewhere(s: seq<Insight>, sid: int, other: int)
    requires AllOf(s, sid) && other != sid
    ensures Tally(s, other) == multiset{}
  {
    if s != [] { TallyElsewhere(s[..|s| - 1], sid, other); }
  }

  lemma TakingConservesAt(active: seq<Insight>, c: Closing, closings: seq<Insight>, added: seq<Insight>, sid: int)
    requires ConservedAt(active, closings, added, sid)
    ensures ConservedAt(Left(c, active), closings + Taken(c, active), added, sid)
  {
    TallyConcat(closings, Taken(c, active), sid);
    TallyTakenAndLeft(c, active, sid);
  }

  lemma TakingElsewhere(active: seq<Insight>, taken: seq<Insight>, from: int, closings: seq<Insight>,
                        added: seq<Insight>, sid: int)
    requires ConservedAt(active, closings, added, sid) && AllOf(taken, from) && from != sid
    ensures ConservedAt(active, closings + taken, added, sid)
  {
    TallyConcat(closings, taken, sid);
    TallyElsewhere(taken, from, sid);
  }

  /** Closing some of a symbol's insights conserves. */
  lemma TakingConserves(m: Filing, sid: int, c: Closing, closings: seq<Insight>, added: seq<Insight>)
    requires Filed(m) && sid in m && Conserved(m, closings, added)
    ensures Filed(Put(m, sid, Left(c, m[sid])))
    ensures Conserved(Put(m, sid, Left(c, m[sid])), closings + Taken(c, m[sid]), added)
  {
    StayFiled(c, m[sid], sid);
    forall other { TakingConservesOf(m, sid, c, closings, added, other); }
  }

  lemma TakingConservesOf(m: Filing, sid: int, c: Closing, closings: seq<Insight>, added: seq<Insight>, other: int)
    requires Filed(m) && sid in m && ConservedAt(At(m, other), closings, added, other)
    ensures ConservedAt(At(Put(m, sid, Left(c, m[sid])), other), closings + Taken(c, m[sid]), added, other)
  {
    StayFiled(c, m[sid], sid);
    PutAt(m, sid, Left(c, m[sid]), other);
    if other == sid {
      TakingConservesAt(m[sid], c, closings, added, sid);
    } else {
      TakingElsewhere(At(m, other), Taken(c, m[sid]), sid, closings, added, other);
    }
  }

  lemma AddingConserves(m: Filing, i: Insight, closings: seq<Insight>, added: seq<Insight>)
    requires Filed(m) && Conserved(m, closings, added)
    ensures Filed(Pushed(m, i)) && Conserved(Pushed(m, i), closings, added + [i])
  {
    forall sid { AddingConservesOf(m, i, closings, added, sid); }
  }

  lemma AddingConservesOf(m: Filing, i: Insight, closings: seq<Insight>, added: seq<Insight>, sid: int)
    requires ConservedAt(At(m, sid), closings, added, sid)
    ensures ConservedAt(At(Pushed(m, i), sid), closings, added + [i], sid)
  {
  }

  // ---- Cutting insights short ----

  function CutAll(s: seq<Insight>, now: int): (r: seq<Insight>)
    ensures |r| == |s| && forall i :: 0 <= i < |s| ==> r[i] == s[i].CutShort(now)
  {
    if s == [] then [] else CutAll(s[..|s| - 1], now) + [s[|s| - 1].CutShort(now)]
  }

  function CutAt(m: Filing, sid: int, now: int): Filing { if sid in m then m[sid := CutAll(m[sid], now)] else m }

  /** The active insights of a list, as they are once cut short. */
  function CutOf(s: seq<Insight>, now: int): seq<Insight> {
    if s == [] then [] else
      CutOf(s[..|s| - 1], now) + if s[|s| - 1].IsActive(now) then [s[|s| - 1].CutShort(now)] else []
  }

  lemma {:induction false} CutKeepsTally(s: seq<Insight>, now: int, sid: int)
    ensures Tally(CutAll(s, now), sid) == Tally(s, sid)
  {
    if s != [] {
      CutKeepsTally(s[..|s| - 1], now, sid);
      assert CutAll(s, now)[..|s| - 1] == CutAll(s[..|s| - 1], now);
    }
  }

  /** Nothing is left active, so cutting again does nothing and reports nothing. */
  lemma {:induction false} CutTwice(s: seq<Insight>, now: int)
    ensures CutAll(CutAll(s, now), now) == CutAll(s, now) && CutOf(CutAll(s, now), now) == []
  {
    if s != [] {
      CutTwice(s[..|s| - 1], now);
      assert CutAll(s, now)[..|s| - 1] == CutAll(s[..|s| - 1], now);
    }
  }

  lemma CuttingConserves(m: Filing, sid: int, now: int, closings: seq<Insight>, added: seq<Insight>)
    requires Filed(m) && Conserved(m, closings, added)
    ensures Filed(CutAt(m, sid, now)) && Conserved(CutAt(m, sid, now), closings, added)
  {
    forall other { CuttingConservesOf(m, sid, now, closings, added, other); }
  }

  lemma CuttingConservesOf(m: Filing, sid: int, now: int, closings: seq<Insight>, added: seq<Insight>, other: int)
    requires ConservedAt(At(m, other), closings, added, other)
    ensures ConservedAt(At(CutAt(m, sid, now), other), closings, added, other)
  {
    CutConservesAt(At(m, sid), now, closings, added, sid);
  }

  lemma CutConservesAt(active: seq<Insight>, now: int, closings: seq<Insight>, added: seq<Insight>, sid: int)
    ensures ConservedAt(CutAll(active, now), closings, added, sid) <==> ConservedAt(active, closings, added, sid)
  {
    CutKeepsTally(active, now, sid);
  }

  // ---- Snapshots ----

  datatype Snapshot = Snapshot(active: seq<Insight>, closed: seq<Insight>, totalCount: nat)
  datatype ActiveSnapshot = ActiveSnapshot(active: seq<Insight>, closed: seq<Insight>, closedVersion: nat,
                                           totalCount: nat)

  /** Refile a flat list, each insight at the end of its symbol's. */
  function Grouped(s: seq<Insight>): Filing {
    if s == [] then map[] else
      var m, last := Grouped(s[..|s| - 1]), s[|s| - 1];
      Pushed(m, last)
  }

  function Of(s: seq<Insight>, sid: int): seq<Insight> {
    if s == [] then [] else Of(s[..|s| - 1], sid) + if s[|s| - 1].sid == sid then [s[|s| - 1]] else []
  }

  lemma {:induction false} GroupedAt(s: seq<Insight>, sid: int)
    ensures At(Grouped(s), sid) == Of(s, sid) && (sid in Grouped(s) <==> Of(s, sid) != [])
  {
    if s != [] { GroupedAt(s[..|s| - 1], sid); }
  }

  lemma {:induction false} OfConcat(a: seq<Insight>, b: seq<Insight>, sid: int)
    ensures Of(a + b, sid) == Of(a, sid) + Of(b, sid)
    decreases |b|
  {
    if b == [] {
      assert a + b == a;
    } else {
      assert (a + b)[..|a + b| - 1] == a + b[..|b| - 1];
      OfConcat(a, b[..|b| - 1], sid);
    }
  }

  lemma {:induction false} OfOneSymbol(s: seq<Insight>, sid: int, other: int)
    requires AllOf(s, sid)
    ensures Of(s, other) == if other == sid then s else []
  {
    if s != [] { OfOneSymbol(s[..|s| - 1], sid, other); }
  }

  lemma {:induction false} OfFlattened(m: Filing, keys: seq<int>, sid: int)
    requires Filed(m) && Ascending(keys)
    ensures Of(Flattened(m, keys), sid) == if sid in keys then At(m, sid) else []
    decreases |keys|
  {
    if keys != [] {
      var most, last := keys[..|keys| - 1], keys[|keys| - 1];
      assert keys == most + [last];
      OfFlattened(m, most, sid);
      OfConcat(Flattened(m, most), At(m, last), sid);
      OfOneSymbol(At(m, last), last, sid);
    }
  }

  /** Flattening in symbol order and refiling restores every symbol's list. */
  lemma RefilingRestores(m: Filing)
    requires Filed(m)
    ensures Grouped(InOrder(m)) == m
  {
    forall sid ensures At(Grouped(InOrder(m)), sid) == At(m, sid) && (sid in Grouped(InOrder(m)) <==> sid in m) {
      RefiledAt(m, sid);
    }
    SameFiling(Grouped(InOrder(m)), m);
  }

  lemma RefiledAt(m: Filing, sid: int)
    requires Filed(m)
    ensures At(Grouped(InOrder(m)), sid) == At(m, sid) && (sid in Grouped(InOrder(m)) <==> sid in m)
  {
    GroupedAt(InOrder(m), sid);
    OfFlattened(m, Listing(m.Keys), sid);
    assert sid in Listing(m.Keys) <==> sid in m.Keys;
  }

  lemma SameFiling(a: Filing, b: Filing)
    requires forall sid :: At(a, sid) == At(b, sid) && (sid in a <==> sid in b)
    ensures a == b
  {
    forall sid ensures sid in a.Keys <==> sid in b.Keys {
      assert At(a, sid) == At(b, sid);
    }
    assert a.Keys == b.Keys;
    forall sid | sid in a.Keys ensures a[sid] == b[sid] {
      assert At(a, sid) == At(b, sid);
    }
  }

  /** A refiled list holds exactly its own insights. */
  lemma {:induction false} GroupedTally(s: seq<Insight>, sid: int)
    ensures Tally(At(Grouped(s), sid), sid) == Tally(s, sid)
  {
    if s != [] {
      var most, last := s[..|s| - 1], s[|s| - 1];
      GroupedTally(most, sid);
      TallyConcat(At(Grouped(most), sid), [last], sid);
      OneTally(last, sid);
    }
  }
}
