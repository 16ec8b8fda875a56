/** The mutable insight collection: its methods take the steps of the state machine. */
module InsightCollection {
  import opened Results
  import opened OrderedKeys
  import opened Insights
  import opened InsightRuns

  /** The scan of one symbol's list: `remove(i)` what closes, step over what stays. */
  method ScanList(all: seq<Insight>, c: Closing) returns (v: seq<Insight>, taken: seq<Insight>)
    ensures v == Left(c, all) && taken == Taken(c, all)
  {
    v := all;
    ghost var kept, rest := [], all;
    var i := 0;
    taken := [];
    ScanStart(c, all);
    while i < |v|
      invariant v == kept + rest && i == |kept|
      invariant Scanning(c, all, kept, taken, rest)
      decreases |v| - i
    {
      Advance(v, i, kept, rest);
      ScanStep(c, all, kept, taken, rest);
      if c.Takes(v[i]) {
        taken := taken + [c.Final(v[i])];
        v := v[..i] + v[i + 1..];
      } else {
        kept := kept + [v[i]];
        i := i + 1;
      }
      rest := rest[1..];
    }
    ScanEnd(c, all, kept, taken, rest);
  }

  /** What has been kept and taken, and what the rest will add. */
  ghost predicate Scanning(c: Closing, all: seq<Insight>, kept: seq<Insight>, taken: seq<Insight>, rest: seq<Insight>) {
    Left(c, all) == kept + Left(c, rest) && Taken(c, all) == taken + Taken(c, rest)
  }

  lemma ScanStep(c: Closing, all: seq<Insight>, kept: seq<Insight>, taken: seq<Insight>, rest: seq<Insight>)
    requires rest != [] && Scanning(c, all, kept, taken, rest)
    ensures if c.Takes(rest[0]) then Scanning(c, all, kept, taken + [c.Final(rest[0])], rest[1..])
            else Scanning(c, all, kept + [rest[0]], taken, rest[1..])
  {
    FirstScanned(c, rest);
  }

  lemma ScanEnd(c: Closing, all: seq<Insight>, kept: seq<Insight>, taken: seq<Insight>, rest: seq<Insight>)
    requires Scanning(c, all, kept, taken, rest) && |kept + rest| <= |kept|
    ensures kept + rest == Left(c, all) && taken == Taken(c, all)
  {
  }

  lemma Advance(v: seq<Insight>, i: nat, kept: seq<Insight>, rest: seq<Insight>)
    requires v == kept + rest && i == |kept| < |v|
    ensures rest != [] && v[i] == rest[0]
    ensures v[..i] + v[i + 1..] == kept + rest[1..] && v == kept + [v[i]] + rest[1..]
  {
  }

  lemma ScanStart(c: Closing, all: seq<Insight>)
    ensures Scanning(c, all, [], [], all)
  {
  }

  lemma FirstScanned(c: Closing, s: seq<Insight>)
    requires s != []
    ensures Left(c, s) == (if c.Takes(s[0]) then [] else [s[0]]) + Left(c, s[1..])
    ensures Taken(c, s) == (if c.Takes(s[0]) then [c.Final(s[0])] else []) + Taken(c, s[1..])
  {
    assert s == [s[0]] + s[1..];
    assert [s[0]][..0] == [];
    TakenConcat(c, [s[0]], s[1..]);
    LeftConcat(c, [s[0]], s[1..]);
  }

  /** `iter_mut`: cut short what is still active, and report it. */
  method CutList(all: seq<Insight>, now: int) returns (v: seq<Insight>, cut: seq<Insight>)
    ensures v == CutAll(all, now) && cut == CutOf(all, now)
  {
    v, cut := all, [];
    for i := 0 to |v|
      invariant |v| == |all| && v[i..] == all[i..] && v[..i] == CutAll(all[..i], now)
      invariant cut == CutOf(all[..i], now)
    {
      assert all[..i + 1][..i] == all[..i] && v[i] == v[i..][0] == all[i];
      ghost var before := v;
      if v[i].IsActive(now) {
        var short := v[i].(closeTime := now - SECOND, period := now - SECOND - v[i].generated);
        v := v[i := short];
        cut := cut + [short];
      }
      assert v[..i + 1] == before[..i] + [all[i].CutShort(now)];
      assert v[i + 1..] == before[i..][1..] == all[i + 1..];
    }
    assert all[..|all|] == all && v[..|v|] == v;
  }

  method Flatten(m: Filing, keys: seq<int>) returns (s: seq<Insight>)
    ensures s == Flattened(m, keys)
  {
    s := [];
    for k := 0 to |keys|
      invariant s == Flattened(m, keys[..k])
    {
      assert keys[..k + 1][..k] == keys[..k];
      s := s + if keys[k] in m then m[keys[k]] else [];
    }
    assert keys[..|keys|] == keys;
  }

  class InsightCollection {
    var insights: Filing
    var closed: seq<Insight>
    var closedVersion: nat
    var totalCount: nat

    ghost function State(): Collection
      reads this
    {
      Collection(insights, closed, closedVersion, totalCount)
    }

    constructor ()
      ensures State() == EMPTY
    {
      insights, closed, closedVersion, totalCount := map[], [], 0, 0;
    }

    constructor FromSnapshot(s: Snapshot)
      ensures State() == Restored(s)
    {
      var m: Filing := map[];
      for i := 0 to |s.active|
        invariant m == Grouped(s.active[..i])
      {
        m := Pushed(m, s.active[i]);
        assert s.active[..i + 1][..i] == s.active[..i];
      }
      assert s.active[..|s.active|] == s.active;
      insights := m;
      closed := if |s.closed| > MAX_CLOSED_HISTORY then s.closed[|s.closed| - MAX_CLOSED_HISTORY..] else s.closed;
      closedVersion, totalCount := 0, s.totalCount;
    }

    method AddInsight(i: Insight)
      modifies this
      ensures State() == Step(old(State()), Add(i)).0
    {
      totalCount := totalCount + 1;
      insights := Pushed(insights, i);
    }

    /** Close what closes of each symbol in turn, then bound the history and move its version if it grew. */
    method Close(keys: seq<int>, c: Closing) returns (out: seq<Insight>)
      modifies this
      ensures (State(), out) == Closed(old(State()), keys, c)
    {
      out := [];
      for k := 0 to |keys|
        invariant (insights, out) == Scanned(old(insights), keys[..k], c)
        invariant closed == old(closed) + out
        invariant closedVersion == old(closedVersion) && totalCount == old(totalCount)
      {
        assert keys[..k + 1][..k] == keys[..k];
        if keys[k] in insights {
          var v, taken := ScanList(insights[keys[k]], c);
          insights := if v == [] then insights - {keys[k]} else insights[keys[k] := v];
          closed, out := closed + taken, out + taken;
        }
      }
      assert keys[..|keys|] == keys;
      if |closed| > MAX_CLOSED_HISTORY {
        closed := closed[|closed| - MAX_CLOSED_HISTORY..];
      }
      if out != [] {
        closedVersion := closedVersion + 1;
      }
    }

    method RemoveExpiredInsights(now: int) returns (expired: seq<Insight>)
      modifies this
      ensures (State(), expired) == Step(old(State()), RemoveExpired(now))
    {
      var keys := KeysInOrder(insights.Keys);
      ListingIsUnique(keys, Listing(insights.Keys), insights.Keys);
      expired := Close(keys, Expired(now));
    }

    method CloseSourceSymbol(sid: int, source: string, now: int) returns (out: seq<Insight>)
      modifies this
      ensures (State(), out) == Step(old(State()), CloseSource(sid, source, now))
    {
      out := Close([sid], Flat(source, now));
    }

    method ClearInsightSymbols(symbols: seq<int>) returns (removed: seq<Insight>)
      modifies this
      ensures (State(), removed) == Step(old(State()), ClearSymbols(symbols))
    {
      removed := Close(symbols, Cleared);
    }

    method ExpireInsights(symbols: seq<int>, now: int) returns (expired: seq<Insight>)
      modifies this
      ensures (State(), expired) == Step(old(State()), Expire(symbols, now))
    {
      expired := [];
      for k := 0 to |symbols|
        invariant (insights, expired) == CutShort(old(insights), symbols[..k], now)
        invariant closed == old(closed) && closedVersion == old(closedVersion) && totalCount == old(totalCount)
      {
        assert symbols[..k + 1][..k] == symbols[..k];
        if symbols[k] in insights {
          var v, cut := CutList(insights[symbols[k]], now);
          insights := insights[symbols[k] := v];
          expired := expired + cut;
        } else {
          assert CutOf(At(insights, symbols[k]), now) == [];
          assert expired + [] == expired;
        }
      }
      assert symbols[..|symbols|] == symbols;
    }

    method ActiveInOrder() returns (active: seq<Insight>)
      ensures active == InOrder(insights)
    {
      var keys := KeysInOrder(insights.Keys);
      ListingIsUnique(keys, Listing(insights.Keys), insights.Keys);
      active := Flatten(insights, keys);
    }

    method TakeSnapshot() returns (s: Snapshot)
      ensures s == Saved(State())
    {
      var active := ActiveInOrder();
      s := Snapshot(active, closed, totalCount);
    }

    method TakeActiveSnapshot() returns (s: ActiveSnapshot)
      ensures s == Observed(State())
    {
      var active := ActiveInOrder();
      s := ActiveSnapshot(active, closed, closedVersion, totalCount);
    }

    method ActiveSnapshotReusingClosed(version: Option<nat>, slice: Option<seq<Insight>>) returns (s: ActiveSnapshot)
      ensures s == ObservedReusing(State(), version, slice)
    {
      var history := if version == Some(closedVersion) then (if slice.Some? then slice.value else []) else closed;
      var active := ActiveInOrder();
      s := ActiveSnapshot(active, history, closedVersion, totalCount);
    }
  }

  method Perform(c: InsightCollection, op: Operation) returns (out: seq<Insight>)
    modifies c
    ensures (c.State(), out) == Step(old(c.State()), op)
  {
    match op {
      case Add(insight) => c.AddInsight(insight); out := [];
      case RemoveExpired(now) => out := c.RemoveExpiredInsights(now);
      case CloseSource(sid, source, now) => out := c.CloseSourceSymbol(sid, source, now);
      case ClearSymbols(symbols) => out := c.ClearInsightSymbols(symbols);
      case Expire(symbols, now) => out := c.ExpireInsights(symbols, now);
    }
  }

  method PerformAll(c: InsightCollection, ops: seq<Operation>, i: nat, j: nat)
    requires i <= j <= |ops| && c.State() == Run(ops[..i])
    modifies c
    ensures c.State() == Run(ops[..j])
  {
    for k := i to j
      invariant c.State() == Run(ops[..k])
    {
      assert ops[..k + 1][..k] == ops[..k];
      var _ := Perform(c, ops[k]);
    }
  }

  /** A run from a new collection, observed after the first `at` operations. */
  method Replay(ops: seq<Operation>, at: nat) returns (c: InsightCollection, earlier: ActiveSnapshot)
    requires at <= |ops|
    ensures fresh(c) && c.State() == Run(ops) && earlier == Observed(Run(ops[..at]))
  {
    c := new InsightCollection();
    PerformAll(c, ops, 0, at);
    earlier := c.TakeActiveSnapshot();
    PerformAll(c, ops, at, |ops|);
    assert ops[..|ops|] == ops;
  }

  /** A run that observes twice, reusing the first observation for the second, and then saves and restores. */
  method Serve(ops: seq<Operation>, at: nat)
    returns (earlier: ActiveSnapshot, now: ActiveSnapshot, restored: InsightCollection)
    requires at <= |ops|
    ensures earlier == Observed(Run(ops[..at])) && now == Observed(Run(ops))
    ensures fresh(restored) && restored.State() == Run(ops).(closedVersion := 0)
  {
    var c;
    c, earlier := Replay(ops, at);
    ReuseIsFaithful(ops, at);
    now := c.ActiveSnapshotReusingClosed(Some(earlier.closedVersion), Some(earlier.closed));
    var s := c.TakeSnapshot();
    SavingRestores(ops);
    restored := new InsightCollection.FromSnapshot(s);
  }
}
