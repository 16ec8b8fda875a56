/** The insight collection as a state machine, and what whole runs of it keep. */
module InsightRuns {
  import opened Results
  import opened OrderedKeys
  import opened Insights

  datatype Collection = Collection(insights: Filing, closed: seq<Insight>, closedVersion: nat, totalCount: nat)

  const EMPTY := Collection(map[], [], 0, 0)

  datatype Operation =
    | Add(insight: Insight)
    | RemoveExpired(now: int)
    | CloseSource(sid: int, source: string, now: int)
    | ClearSymbols(symbols: seq<int>)
    | Expire(symbols: seq<int>, now: int)

  /** Close what closes of one symbol after another; what closed, in order. */
  function Scanned(m: Filing, keys: seq<int>, c: Closing): (Filing, seq<Insight>) {
    if keys == [] then (m, []) else
      var (after, taken) := Scanned(m, keys[..|keys| - 1], c);
      var key := keys[|keys| - 1];
      if key in after then (Put(after, key, Left(c, after[key])), taken + Taken(c, after[key])) else (after, taken)
  }

  /** The most recent closings, at most the bound. */
  function Latest(s: seq<Insight>): seq<Insight> {
    if |s| > MAX_CLOSED_HISTORY then s[|s| - MAX_CLOSED_HISTORY..] else s
  }

  function Closed(st: Collection, keys: seq<int>, c: Closing): (Collection, seq<Insight>) {
    var (m, taken) := Scanned(st.insights, keys, c);
    var version := if taken != [] then st.closedVersion + 1 else st.closedVersion;
    (Collection(m, Latest(st.closed + taken), version, st.totalCount), taken)
  }

  function CutShort(m: Filing, symbols: seq<int>, now: int): (Filing, seq<Insight>) {
    if symbols == [] then (m, []) else
      var (after, cut) := CutShort(m, symbols[..|symbols| - 1], now);
      var sid := symbols[|symbols| - 1];
      (CutAt(after, sid, now), cut + CutOf(At(after, sid), now))
  }

  /** One operation: the collection after it, and the insights it returns. */
  ghost function Step(st: Collection, op: Operation): (Collection, seq<Insight>) {
    match op
    case Add(i) => (st.(insights := Pushed(st.insights, i), totalCount := st.totalCount + 1), [])
    case RemoveExpired(now) => Closed(st, Listing(st.insights.Keys), Expired(now))
    case CloseSource(sid, source, now) => Closed(st, [sid], Flat(source, now))
    case ClearSymbols(symbols) => Closed(st, symbols, Cleared)
    case Expire(symbols, now) =>
      var (m, cut) := CutShort(st.insights, symbols, now);
      (st.(insights := m), cut)
  }

  ghost function Run(ops: seq<Operation>): Collection {
    if ops == [] then EMPTY else Step(Run(ops[..|ops| - 1]), ops[|ops| - 1]).0
  }

  function AddedBy(ops: seq<Operation>): seq<Insight> {
    if ops == [] then [] else
      AddedBy(ops[..|ops| - 1]) + if ops[|ops| - 1].Add? then [ops[|ops| - 1].insight] else []
  }

  /** Everything the operations of a run closed, in the order they returned it. */
  ghost function ClosedBy(ops: seq<Operation>): seq<Insight> {
    if ops == [] then [] else
      var last := ops[|ops| - 1];
      ClosedBy(ops[..|ops| - 1]) + if last.Expire? then [] else Step(Run(ops[..|ops| - 1]), last).1
  }

  // ---- What every run keeps ----

  lemma LatestOfLatest(a: seq<Insight>, b: seq<Insight>)
    ensures Latest(Latest(a) + b) == Latest(a + b)
  {
  }

  lemma {:induction false} ScanningConserves(m: Filing, keys: seq<int>, c: Closing, closings: seq<Insight>,
                                             added: seq<Insight>)
    requires Filed(m) && Conserved(m, closings, added)
    ensures var (after, taken) := Scanned(m, keys, c);
            Filed(after) && Conserved(after, closings + taken, added) && AllFinal(taken)
    decreases |keys|
  {
    var (after, taken) := Scanned(m, keys, c);
    if keys == [] {
      assert closings + taken == closings;
    } else {
      var most, key := keys[..|keys| - 1], keys[|keys| - 1];
      ScanningConserves(m, most, c, closings, added);
      var (before, done) := Scanned(m, most, c);
      if key in before {
        TakingConserves(before, key, c, closings + done, added);
        TakenIsFinal(c, before[key]);
        assert closings + done + Taken(c, before[key]) == closings + taken;
      }
    }
  }

  lemma {:induction false} CuttingKeeps(m: Filing, symbols: seq<int>, now: int, closings: seq<Insight>,
                                        added: seq<Insight>)
    requires Filed(m) && Conserved(m, closings, added)
    ensures var (after, _) := CutShort(m, symbols, now); Filed(after) && Conserved(after, closings, added)
    decreases |symbols|
  {
    if symbols != [] {
      var most := symbols[..|symbols| - 1];
      CuttingKeeps(m, most, now, closings, added);
      CuttingConserves(CutShort(m, most, now).0, symbols[|symbols| - 1], now, closings, added);
    }
  }

  /** Over any run from a new collection: the added insights are the active ones and the closings, symbol
      by symbol; the closed history is the latest of the closings, at most the bound, and all are final. */
  ghost predicate Sound(st: Collection, added: seq<Insight>, closings: seq<Insight>) {
    && Filed(st.insights) && Conserved(st.insights, closings, added)
    && st.totalCount == |added| && AllFinal(closings) && st.closed == Latest(closings)
  }

  lemma StepKeepsSound(st: Collection, op: Operation, added: seq<Insight>, closings: seq<Insight>)
    requires Sound(st, added, closings)
    ensures Sound(Step(st, op).0, added + (if op.Add? then [op.insight] else []),
                  closings + (if op.Expire? then [] else Step(st, op).1))
  {
    assert closings + [] == closings && added + [] == added;
    match op {
      case Add(i) => AddingConserves(st.insights, i, closings, added);
      case RemoveExpired(now) => ClosingKeepsSound(st, Listing(st.insights.Keys), Expired(now), added, closings);
      case CloseSource(sid, source, now) => ClosingKeepsSound(st, [sid], Flat(source, now), added, closings);
      case ClearSymbols(symbols) => ClosingKeepsSound(st, symbols, Cleared, added, closings);
      case Expire(symbols, now) => CuttingKeeps(st.insights, symbols, now, closings, added);
    }
  }

  lemma ClosingKeepsSound(st: Collection, keys: seq<int>, c: Closing, added: seq<Insight>, closings: seq<Insight>)
    requires Sound(st, added, closings)
    ensures var (after, taken) := Closed(st, keys, c); Sound(after, added, closings + taken)
  {
    var taken := Closed(st, keys, c).1;
    ScanningConserves(st.insights, keys, c, closings, added);
    LatestOfLatest(closings, taken);
  }

  lemma {:induction false} RunIsSound(ops: seq<Operation>)
    ensures Sound(Run(ops), AddedBy(ops), ClosedBy(ops))
    decreases |ops|
  {
    if ops == [] {
      forall sid ensures ConservedAt(At(Run(ops).insights, sid), ClosedBy(ops), AddedBy(ops), sid) {
      }
    } else {
      var most := ops[..|ops| - 1];
      RunIsSound(most);
      StepKeepsSound(Run(most), ops[|ops| - 1], AddedBy(most), ClosedBy(most));
    }
  }

  /** In particular: what observers see as active, with everything closed, is what was added. */
  lemma RunConserves(ops: seq<Operation>, sid: int)
    ensures Tally(InOrder(Run(ops).insights), sid) + Tally(ClosedBy(ops), sid) == Tally(AddedBy(ops), sid)
  {
    RunIsSound(ops);
    RefilingRestores(Run(ops).insights);
    GroupedTally(InOrder(Run(ops).insights), sid);
    assert ConservedAt(At(Run(ops).insights, sid), ClosedBy(ops), AddedBy(ops), sid);
  }

  // ---- The version stamps the closed history ----

  lemma {:induction false} VersionStamps(ops: seq<Operation>, at: nat)
    requires at <= |ops|
    ensures Run(ops[..at]).closedVersion <= Run(ops).closedVersion
    ensures Run(ops[..at]).closedVersion == Run(ops).closedVersion ==> Run(ops[..at]).closed == Run(ops).closed
    decreases |ops|
  {
    if at < |ops| {
      var most := ops[..|ops| - 1];
      assert most[..at] == ops[..at];
      VersionStamps(most, at);
      RunIsSound(most);
      StepStamps(Run(most), ops[|ops| - 1]);
    } else {
      assert ops[..at] == ops;
    }
  }

  lemma StepStamps(st: Collection, op: Operation)
    requires |st.closed| <= MAX_CLOSED_HISTORY
    ensures st.closedVersion <= Step(st, op).0.closedVersion
    ensures st.closedVersion == Step(st, op).0.closedVersion ==> st.closed == Step(st, op).0.closed
  {
  }

  /** The observer's snapshot: the active insights in order, the closed history, its version and the count. */
  ghost function Observed(st: Collection): ActiveSnapshot {
    ActiveSnapshot(InOrder(st.insights), st.closed, st.closedVersion, st.totalCount)
  }

  ghost function ObservedReusing(st: Collection, version: Option<nat>, slice: Option<seq<Insight>>): ActiveSnapshot {
    var closed := if version == Some(st.closedVersion) then (if slice.Some? then slice.value else []) else st.closed;
    ActiveSnapshot(InOrder(st.insights), closed, st.closedVersion, st.totalCount)
  }

  /** The cheap snapshot, given the version and slice of any earlier moment of the run, is the full one. */
  lemma ReuseIsFaithful(ops: seq<Operation>, at: nat)
    requires at <= |ops|
    ensures var earlier, now := Observed(Run(ops[..at])), Run(ops);
            ObservedReusing(now, Some(earlier.closedVersion), Some(earlier.closed)) == Observed(now)
  {
    VersionStamps(ops, at);
  }

  // ---- What each operation closes ----

  lemma {:induction false} ScannedOnce(m: Filing, keys: seq<int>, c: Closing)
    requires Ascending(keys)
    ensures forall sid :: At(Scanned(m, keys, c).0, sid) == if sid in keys then Left(c, At(m, sid)) else At(m, sid)
    ensures Scanned(m, keys, c).1 == Taken(c, Flattened(m, keys))
    decreases |keys|
  {
    if keys != [] {
      var most, key := keys[..|keys| - 1], keys[|keys| - 1];
      assert keys == most + [key] && key !in most;
      ScannedOnce(m, most, c);
      var after := Scanned(m, most, c).0;
      assert At(after, key) == At(m, key);
      TakenConcat(c, Flattened(m, most), At(m, key));
      assert key !in after ==> Taken(c, At(m, key)) == [] && Left(c, At(m, key)) == [];
    }
  }

  /** Expiry closes exactly the expired insights, in symbol order, and leaves the others as they were. */
  lemma RemoveExpiredExactly(st: Collection, now: int)
    ensures var (after, expired) := Step(st, RemoveExpired(now));
            && expired == Taken(Expired(now), InOrder(st.insights))
            && forall sid :: At(after.insights, sid) == Left(Expired(now), At(st.insights, sid))
  {
    var keys := Listing(st.insights.Keys);
    ScannedOnce(st.insights, keys, Expired(now));
    forall sid ensures sid !in keys ==> At(st.insights, sid) == [] {
      assert sid in keys <==> sid in st.insights.Keys;
    }
  }

  /** What has been scanned once has nothing more to give. */
  lemma {:induction false} ScanTwice(c: Closing, s: seq<Insight>)
    ensures Taken(c, Left(c, s)) == [] && Left(c, Left(c, s)) == Left(c, s)
  {
    if s != [] {
      var kept, last := Left(c, s[..|s| - 1]), s[|s| - 1];
      ScanTwice(c, s[..|s| - 1]);
      if c.Takes(last) {
        assert Left(c, s) == kept;
      } else {
        assert Left(c, s) == kept + [last];
        ScanKeepsLast(c, kept, last);
      }
    }
  }

  lemma ScanKeepsLast(c: Closing, kept: seq<Insight>, last: Insight)
    requires !c.Takes(last) && Taken(c, kept) == [] && Left(c, kept) == kept
    ensures Taken(c, kept + [last]) == [] && Left(c, kept + [last]) == kept + [last]
  {
    assert (kept + [last])[..|kept|] == kept;
  }

  /** A symbol's list after a scan of some symbols, in any order and with repeats. */
  lemma {:induction false} ScannedAt(m: Filing, keys: seq<int>, c: Closing, sid: int)
    ensures At(Scanned(m, keys, c).0, sid) == if sid in keys then Left(c, At(m, sid)) else At(m, sid)
    decreases |keys|
  {
    if keys != [] {
      var most, key := keys[..|keys| - 1], keys[|keys| - 1];
      assert keys == most + [key];
      ScannedAt(m, most, c, sid);
      ScanTwice(c, At(m, sid));
      PutAt(Scanned(m, most, c).0, key, Left(c, At(Scanned(m, most, c).0, key)), sid);
    }
  }

  /** What such a scan takes of a symbol: once, however often the symbol is listed. */
  lemma {:induction false} ScannedOf(m: Filing, keys: seq<int>, c: Closing, sid: int)
    requires Filed(m)
    ensures Of(Scanned(m, keys, c).1, sid) == if sid in keys then Taken(c, At(m, sid)) else []
    decreases |keys|
  {
    if keys != [] {
      ScannedOf(m, keys[..|keys| - 1], c, sid);
      OneMoreScan(m, keys, c, sid);
    }
  }

  lemma OneMoreScan(m: Filing, keys: seq<int>, c: Closing, sid: int)
    requires Filed(m) && keys != []
    requires var most := keys[..|keys| - 1];
             Of(Scanned(m, most, c).1, sid) == if sid in most then Taken(c, At(m, sid)) else []
    ensures Of(Scanned(m, keys, c).1, sid) == if sid in keys then Taken(c, At(m, sid)) else []
  {
    var most, key := keys[..|keys| - 1], keys[|keys| - 1];
    assert keys == most + [key];
    TakenNext(m, keys, c);
    OneMoreTaken(At(m, key), Scanned(m, most, c).1, key in most, c, key, sid);
  }

  /** The last symbol gives its insights the first time it is listed, and nothing again. */
  lemma TakenNext(m: Filing, keys: seq<int>, c: Closing)
    requires keys != []
    ensures var most, key := keys[..|keys| - 1], keys[|keys| - 1];
            Scanned(m, keys, c).1 == Scanned(m, most, c).1 + if key in most then [] else Taken(c, At(m, key))
  {
    var most, key := keys[..|keys| - 1], keys[|keys| - 1];
    ScannedAt(m, most, c, key);
    ScanTwice(c, At(m, key));
  }

  lemma OneMoreTaken(whole: seq<Insight>, taken: seq<Insight>, again: bool, c: Closing, key: int, sid: int)
    requires AllOf(whole, key)
    ensures Of(taken + (if again then [] else Taken(c, whole)), sid)
         == if sid == key && !again then Of(taken, sid) + Taken(c, whole) else Of(taken, sid)
  {
    OfConcat(taken, if again then [] else Taken(c, whole), sid);
    StayFiled(c, whole, key);
    OfOneSymbol(Taken(c, whole), key, sid);
  }

  lemma NothingLeftWhenCleared(s: seq<Insight>)
    ensures Left(Cleared, s) == []
  {
  }

  /** Clearing symbols closes every insight of theirs once, however often a symbol is listed, and no other. */
  lemma ClearSymbolsExactly(st: Collection, symbols: seq<int>, sid: int)
    requires Filed(st.insights)
    ensures var (after, removed) := Step(st, ClearSymbols(symbols));
            && At(after.insights, sid) == (if sid in symbols then [] else At(st.insights, sid))
            && Of(removed, sid) == (if sid in symbols then Taken(Cleared, At(st.insights, sid)) else [])
  {
    ScannedAt(st.insights, symbols, Cleared, sid);
    ScannedOf(st.insights, symbols, Cleared, sid);
    NothingLeftWhenCleared(At(st.insights, sid));
  }

  /** A flat signal closes exactly its model's insights of its symbol. */
  lemma CloseSourceExactly(st: Collection, sid: int, source: string, now: int, other: int)
    requires Filed(st.insights)
    ensures var (after, closed) := Step(st, CloseSource(sid, source, now));
            && closed == Taken(Flat(source, now), At(st.insights, sid))
            && At(after.insights, other)
               == (if other == sid then Left(Flat(source, now), At(st.insights, sid)) else At(st.insights, other))
  {
    ScannedAt(st.insights, [sid], Flat(source, now), other);
    assert [sid][..0] == [] && Scanned(st.insights, [], Flat(source, now)) == (st.insights, []);
  }

  lemma CutAtAt(m: Filing, sid: int, now: int, other: int)
    ensures At(CutAt(m, sid, now), other) == if other == sid then CutAll(At(m, sid), now) else At(m, other)
  {
  }

  lemma {:induction false} CutShortAt(m: Filing, symbols: seq<int>, now: int, sid: int)
    ensures At(CutShort(m, symbols, now).0, sid) == if sid in symbols then CutAll(At(m, sid), now) else At(m, sid)
    decreases |symbols|
  {
    if symbols != [] {
      var most, last := symbols[..|symbols| - 1], symbols[|symbols| - 1];
      assert symbols == most + [last];
      CutShortAt(m, most, now, sid);
      CutAtAt(CutShort(m, most, now).0, last, now, sid);
      CutTwice(At(m, sid), now);
    }
  }

  lemma {:induction false} CutShortOf(m: Filing, symbols: seq<int>, now: int, sid: int)
    requires Filed(m)
    ensures Of(CutShort(m, symbols, now).1, sid) == if sid in symbols then CutOf(At(m, sid), now) else []
    decreases |symbols|
  {
    if symbols != [] {
      CutShortOf(m, symbols[..|symbols| - 1], now, sid);
      CutOneMore(m, symbols, now, sid);
    }
  }

  lemma CutOneMore(m: Filing, symbols: seq<int>, now: int, sid: int)
    requires Filed(m) && symbols != []
    requires var most := symbols[..|symbols| - 1];
             Of(CutShort(m, most, now).1, sid) == if sid in most then CutOf(At(m, sid), now) else []
    ensures Of(CutShort(m, symbols, now).1, sid) == if sid in symbols then CutOf(At(m, sid), now) else []
  {
    var most, last := symbols[..|symbols| - 1], symbols[|symbols| - 1];
    var (after, cut) := CutShort(m, most, now);
    assert symbols == most + [last];
    CutShortAt(m, most, now, last);
    OneMoreCut(At(m, last), At(after, last), cut, last in most, now, last, sid);
  }

  /** A symbol adds its cut insights the first time it is listed, and nothing to any other symbol. */
  lemma OneMoreCut(whole: seq<Insight>, present: seq<Insight>, cut: seq<Insight>, again: bool, now: int, last: int,
                   sid: int)
    requires AllOf(whole, last) && present == if again then CutAll(whole, now) else whole
    ensures Of(cut + CutOf(present, now), sid)
         == if sid == last && !again then Of(cut, sid) + CutOf(whole, now) else Of(cut, sid)
  {
    OfConcat(cut, CutOf(present, now), sid);
    CutTwice(whole, now);
    CutOfSymbol(whole, now, last, sid);
    assert Of(cut, sid) + [] == Of(cut, sid);
  }

  lemma CutOfSymbol(s: seq<Insight>, now: int, sid: int, other: int)
    requires AllOf(s, sid)
    ensures Of(CutOf(s, now), other) == if other == sid then CutOf(s, now) else []
  {
    CutOfIsOf(s, now, sid);
    OfOneSymbol(CutOf(s, now), sid, other);
  }

  lemma {:induction false} CutOfIsOf(s: seq<Insight>, now: int, sid: int)
    requires AllOf(s, sid)
    ensures AllOf(CutOf(s, now), sid)
  {
    if s != [] { CutOfIsOf(s[..|s| - 1], now, sid); }
  }

  /** Each active insight of the symbols is cut short and reported once, however often its symbol is
      listed; doing it again changes and reports nothing. */
  lemma ExpireExactly(st: Collection, symbols: seq<int>, now: int, sid: int)
    requires Filed(st.insights)
    ensures var (after, cut) := Step(st, Expire(symbols, now));
            && At(after.insights, sid)
               == (if sid in symbols then CutAll(At(st.insights, sid), now) else At(st.insights, sid))
            && Of(cut, sid) == (if sid in symbols then CutOf(At(st.insights, sid), now) else [])
            && At(Step(after, Expire(symbols, now)).0.insights, sid) == At(after.insights, sid)
            && Of(Step(after, Expire(symbols, now)).1, sid) == []
  {
    var m := CutShort(st.insights, symbols, now).0;
    CutShortAt(st.insights, symbols, now, sid);
    CutShortOf(st.insights, symbols, now, sid);
    CutShortFiled(st.insights, symbols, now);
    CutShortAt(m, symbols, now, sid);
    CutShortOf(m, symbols, now, sid);
    CutTwice(At(st.insights, sid), now);
  }

  lemma {:induction false} CutShortFiled(m: Filing, symbols: seq<int>, now: int)
    requires Filed(m)
    ensures Filed(CutShort(m, symbols, now).0)
    decreases |symbols|
  {
    if symbols != [] { CutShortFiled(m, symbols[..|symbols| - 1], now); }
  }

  // ---- Save and restore ----

  ghost function Saved(st: Collection): Snapshot { Snapshot(InOrder(st.insights), st.closed, st.totalCount) }

  function Restored(s: Snapshot): Collection { Collection(Grouped(s.active), Latest(s.closed), 0, s.totalCount) }

  /** A saved collection restores with every list, its closed history and its count; only the version restarts. */
  lemma SavingRestores(ops: seq<Operation>)
    ensures Restored(Saved(Run(ops))) == Run(ops).(closedVersion := 0)
  {
    RunIsSound(ops);
    RefilingRestores(Run(ops).insights);
  }
}
