/** Which insights each operation closes and cuts, in terms of their times, sources and symbols. */
module InsightTimes {
  import opened Results
  import opened OrderedKeys
  import opened Insights
  import opened InsightRuns

  ghost predicate Active(st: Collection, i: Insight) { i in At(st.insights, i.sid) }

  lemma {:induction false} TakenMembers(c: Closing, s: seq<Insight>, x: Insight)
    ensures x in Taken(c, s) <==> exists i :: i in s && c.Takes(i) && x == c.Final(i)
    ensures x in Left(c, s) <==> x in s && !c.Takes(x)
  {
    if s != [] {
      TakenMembers(c, s[..|s| - 1], x);
      assert s == s[..|s| - 1] + [s[|s| - 1]];
    }
  }

  lemma {:induction false} FlattenedMembers(m: Filing, keys: seq<int>, x: Insight)
    ensures x in Flattened(m, keys) <==> exists key :: key in keys && x in At(m, key)
  {
    if keys != [] {
      FlattenedMembers(m, keys[..|keys| - 1], x);
      assert keys == keys[..|keys| - 1] + [keys[|keys| - 1]];
    }
  }

  lemma InOrderMembers(m: Filing, x: Insight)
    requires Filed(m)
    ensures x in InOrder(m) <==> x in At(m, x.sid)
  {
    FlattenedMembers(m, Listing(m.Keys), x);
    assert forall key :: key in Listing(m.Keys) <==> key in m.Keys;
    if key :| key in m && x in At(m, key) {
      assert AllOf(m[key], key);
    }
  }

  /** Expiry closes the insights whose close time has passed, their fields as they were but for finality; one
      that closes this very instant stays. */
  lemma ExpiryGoesByCloseTime(st: Collection, now: int, x: Insight)
    requires Filed(st.insights)
    ensures var (after, expired) := Step(st, RemoveExpired(now));
            && (x in expired <==> exists i :: Active(st, i) && i.closeTime < now && x == i.(isFinal := true))
            && (Active(after, x) <==> Active(st, x) && x.closeTime >= now)
  {
    RemoveExpiredExactly(st, now);
    TakenMembers(Expired(now), InOrder(st.insights), x);
    TakenMembers(Expired(now), At(st.insights, x.sid), x);
    forall i ensures i in InOrder(st.insights) <==> Active(st, i) {
      InOrderMembers(st.insights, i);
    }
  }

  /** Final, and over by now. */
  function Ended(i: Insight, now: int): Insight {
    i.(isFinal := true, closeTime := if i.closeTime < now then i.closeTime else now)
  }

  lemma ActiveIn(st: Collection, sid: int, i: Insight)
    requires Filed(st.insights)
    ensures i in At(st.insights, sid) <==> Active(st, i) && i.sid == sid
  {
    assert AllOf(At(st.insights, sid), sid);
  }

  lemma SignalCloses(st: Collection, sid: int, source: string, now: int, x: Insight)
    requires Filed(st.insights)
    ensures x in Taken(Flat(source, now), At(st.insights, sid))
            <==> exists i :: Active(st, i) && i.sid == sid && i.source == source && x == Ended(i, now)
  {
    TakenMembers(Flat(source, now), At(st.insights, sid), x);
    forall i ensures i in At(st.insights, sid) <==> Active(st, i) && i.sid == sid {
      ActiveIn(st, sid, i);
    }
  }

  /** A flat signal closes its model's insights of its symbol, none of them later than now. */
  lemma FlatSignalGoesBySource(st: Collection, sid: int, source: string, now: int, x: Insight)
    requires Filed(st.insights)
    ensures var (after, closed) := Step(st, CloseSource(sid, source, now));
            && (x in closed <==> exists i :: Active(st, i) && i.sid == sid && i.source == source && x == Ended(i, now))
            && (Active(after, x) <==> Active(st, x) && !(x.sid == sid && x.source == source))
  {
    CloseSourceExactly(st, sid, source, now, x.sid);
    SignalCloses(st, sid, source, now, x);
    TakenMembers(Flat(source, now), At(st.insights, x.sid), x);
  }

  lemma {:induction false} OfMembers(s: seq<Insight>, sid: int, x: Insight)
    ensures x in Of(s, sid) <==> x in s && x.sid == sid
  {
    if s != [] {
      OfMembers(s[..|s| - 1], sid, x);
      assert s == s[..|s| - 1] + [s[|s| - 1]];
    }
  }

  /** Clearing symbols closes all of theirs, whatever their times and sources. */
  lemma ClearingGoesBySymbol(st: Collection, symbols: seq<int>, x: Insight)
    requires Filed(st.insights)
    ensures var (after, removed) := Step(st, ClearSymbols(symbols));
            && (x in removed <==> exists i :: Active(st, i) && i.sid in symbols && x == i.(isFinal := true))
            && (Active(after, x) <==> Active(st, x) && x.sid !in symbols)
  {
    ClearSymbolsExactly(st, symbols, x.sid);
    OfMembers(Step(st, ClearSymbols(symbols)).1, x.sid, x);
    TakenMembers(Cleared, At(st.insights, x.sid), x);
    assert AllOf(At(st.insights, x.sid), x.sid);
  }

  /** Cutting the listed symbols short leaves every insight of theirs expired: those still active end one second
      before now, with the period that leaves them, and the others keep their times. */
  lemma CancellingEndsBeforeNow(st: Collection, symbols: seq<int>, now: int, sid: int, k: nat)
    requires Filed(st.insights) && k < |At(st.insights, sid)|
    ensures var after, i := Step(st, Expire(symbols, now)).0, At(st.insights, sid)[k];
            && |At(after.insights, sid)| == |At(st.insights, sid)|
            && At(after.insights, sid)[k]
               == if sid in symbols && i.closeTime >= now
                  then i.(closeTime := now - 1_000_000_000, period := now - 1_000_000_000 - i.generated) else i
  {
    ExpireExactly(st, symbols, now, sid);
  }

  lemma CutIsOver(st: Collection, symbols: seq<int>, now: int, sid: int)
    requires Filed(st.insights) && sid in symbols
    ensures var cut := At(Step(st, Expire(symbols, now)).0.insights, sid);
            forall k :: 0 <= k < |cut| ==> cut[k].closeTime < now
  {
    ExpireExactly(st, symbols, now, sid);
  }

  /** So expiry at the same instant closes every insight of those symbols. */
  lemma CancelledExpires(st: Collection, symbols: seq<int>, now: int, sid: int)
    requires Filed(st.insights) && sid in symbols
    ensures At(Step(Step(st, Expire(symbols, now)).0, RemoveExpired(now)).0.insights, sid) == []
  {
    var cut := Step(st, Expire(symbols, now)).0;
    CutIsOver(st, symbols, now, sid);
    AllExpired(At(cut.insights, sid), now);
    RemoveExpiredExactly(cut, now);
  }

  lemma {:induction false} AllExpired(s: seq<Insight>, now: int)
    requires forall i :: 0 <= i < |s| ==> s[i].closeTime < now
    ensures Left(Expired(now), s) == []
  {
    if s != [] { AllExpired(s[..|s| - 1], now); }
  }

  // ---- The closed history and its version ----

  /** The closed history is the last fifty thousand of everything closed, or all of it. */
  lemma HistoryIsTheLatest(ops: seq<Operation>)
    ensures var all, closed := ClosedBy(ops), Run(ops).closed;
            && |closed| == (if |all| < 50_000 then |all| else 50_000)
            && closed == all[|all| - |closed|..]
  {
    RunIsSound(ops);
  }

  /** How many operations of a run closed something. */
  ghost function Closings(ops: seq<Operation>): nat {
    if ops == [] then 0 else
      var before, last := ops[..|ops| - 1], ops[|ops| - 1];
      Closings(before) + if !last.Expire? && Step(Run(before), last).1 != [] then 1 else 0
  }

  /** The version counts them. */
  lemma {:induction false} VersionCountsClosings(ops: seq<Operation>)
    ensures Run(ops).closedVersion == Closings(ops)
  {
    if ops != [] { VersionCountsClosings(ops[..|ops| - 1]); }
  }
}
