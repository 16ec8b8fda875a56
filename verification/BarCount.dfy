/** Consolidation of every `n` trade bars into one. */
module BarCount {
  import opened Results
  import opened TradeBars

  /** `merge_bar`. */
  function Merge(w: TradeBar, bar: TradeBar): TradeBar {
    w.(high := if bar.high > w.high then bar.high else w.high,
       low := if bar.low < w.low then bar.low else w.low,
       close := bar.close, volume := w.volume + bar.volume,
       endTime := bar.endTime, period := bar.endTime - w.time)
  }

  function MergeAll(bars: seq<TradeBar>): TradeBar
    requires bars != []
  {
    if |bars| == 1 then bars[0] else Merge(MergeAll(bars[..|bars| - 1]), bars[|bars| - 1])
  }

  /** One bar for each full block of `n` inputs. */
  function Blocks(bars: seq<TradeBar>, n: nat): seq<TradeBar>
    requires n > 0
    decreases |bars|
  {
    if |bars| < n then [] else [MergeAll(bars[..n])] + Blocks(bars[n..], n)
  }

  /** The inputs that do not fill a block yet. */
  function Rest(bars: seq<TradeBar>, n: nat): (r: seq<TradeBar>)
    requires n > 0
    ensures |r| < n
    decreases |bars|
  {
    if |bars| < n then bars else Rest(bars[n..], n)
  }

  function Volume(bars: seq<TradeBar>): real {
    if bars == [] then 0.0 else Volume(bars[..|bars| - 1]) + bars[|bars| - 1].volume
  }

  // ---- Merging is associative ----

  lemma {:induction false} MergeAllConcat(a: seq<TradeBar>, b: seq<TradeBar>)
    requires a != [] && b != []
    ensures MergeAll(a + b) == Merge(MergeAll(a), MergeAll(b))
    decreases |b|
  {
    assert (a + b)[..|a + b| - 1] == a + b[..|b| - 1];
    if |b| == 1 {
      assert a + b[..0] == a;
    } else {
      MergeAllConcat(a, b[..|b| - 1]);
    }
  }

  /** What a merged bar shows: the ends from the outer bars, the extremes and the sum of all. */
  lemma {:induction false} MergedBar(bars: seq<TradeBar>)
    requires bars != []
    ensures var w, last := MergeAll(bars), bars[|bars| - 1];
            && w.time == bars[0].time && w.open == bars[0].open && w.endTime == last.endTime && w.close == last.close
            && w.volume == Volume(bars) && (|bars| > 1 ==> w.period == w.endTime - w.time)
            && (forall i :: 0 <= i < |bars| ==> w.low <= bars[i].low && bars[i].high <= w.high)
            && (exists i :: 0 <= i < |bars| && w.low == bars[i].low)
            && exists i :: 0 <= i < |bars| && w.high == bars[i].high
  {
    if |bars| == 1 {
      assert bars[..0] == [];
      assert Volume(bars) == Volume(bars[..0]) + bars[0].volume;
    } else {
      MergedBar(bars[..|bars| - 1]);
    }
  }

  // ---- Blocks of blocks ----

  lemma {:induction false} BlocksOfFullBlocks(bars: seq<TradeBar>, n: nat, k: nat)
    requires n > 0 && k > 0 && |bars| == k * n
    ensures |Blocks(bars, n)| == k && MergeAll(Blocks(bars, n)) == MergeAll(bars)
    decreases k
  {
    assert k * n == n + (k - 1) * n;
    if k == 1 {
      assert bars[..n] == bars;
      assert Blocks(bars, n) == [MergeAll(bars)] + Blocks(bars[n..], n) == [MergeAll(bars)];
    } else {
      BlocksOfFullBlocks(bars[n..], n, k - 1);
      assert bars == bars[..n] + bars[n..];
      MergeAllConcat(bars[..n], bars[n..]);
      MergeAllConcat([MergeAll(bars[..n])], Blocks(bars[n..], n));
    }
  }

  lemma {:induction false} BlocksSplit(a: seq<TradeBar>, b: seq<TradeBar>, n: nat, k: nat)
    requires n > 0 && |a| == k * n
    ensures Blocks(a + b, n) == Blocks(a, n) + Blocks(b, n) && |Blocks(a, n)| == k
    ensures Rest(a + b, n) == Rest(b, n)
    decreases k
  {
    if k == 0 {
      assert a + b == b;
    } else {
      assert k * n == n + (k - 1) * n;
      assert (a + b)[..n] == a[..n] && (a + b)[n..] == a[n..] + b;
      BlocksSplit(a[n..], b, n, k - 1);
    }
  }

  lemma {:induction false} FewBlocks(bars: seq<TradeBar>, n: nat, m: nat)
    requires n > 0 && |bars| < n * m
    ensures |Blocks(bars, n)| < m
    decreases m
  {
    if |bars| >= n {
      assert n * m == n + n * (m - 1);
      FewBlocks(bars[n..], n, m - 1);
    }
  }

  /** Consolidating by `n` and then by `m` is consolidating by `n * m`. */
  lemma {:induction false} BlocksCompose(bars: seq<TradeBar>, n: nat, m: nat)
    requires n > 0 && m > 0
    ensures Blocks(Blocks(bars, n), m) == Blocks(bars, n * m)
    decreases |bars|
  {
    if |bars| < n * m {
      FewBlocks(bars, n, m);
    } else {
      var first, rest := bars[..n * m], bars[n * m..];
      assert bars == first + rest;
      BlocksOfFullBlocks(first, n, m);
      BlocksSplit(first, rest, n, m);
      BlocksCompose(rest, n, m);
      assert Blocks(bars, n)[..m] == Blocks(first, n);
      assert Blocks(bars, n)[m..] == Blocks(rest, n);
    }
  }

  // ---- Volume is conserved ----

  lemma {:induction false} VolumeConcat(a: seq<TradeBar>, b: seq<TradeBar>)
    ensures Volume(a + b) == Volume(a) + Volume(b)
    decreases |b|
  {
    if b == [] {
      assert a + b == a;
    } else {
      assert (a + b)[..|a + b| - 1] == a + b[..|b| - 1];
      VolumeConcat(a, b[..|b| - 1]);
    }
  }

  /** Emitted and working volume is the input volume. */
  lemma {:induction false} VolumeIsKept(bars: seq<TradeBar>, n: nat)
    requires n > 0
    ensures Volume(Blocks(bars, n)) + Volume(Rest(bars, n)) == Volume(bars)
    decreases |bars|
  {
    if |bars| >= n {
      VolumeIsKept(bars[n..], n);
      assert bars == bars[..n] + bars[n..];
      VolumeConcat(bars[..n], bars[n..]);
      MergedBar(bars[..n]);
      VolumeConcat([MergeAll(bars[..n])], Blocks(bars[n..], n));
      MergedBar([MergeAll(bars[..n])]);
    }
  }

  // ---- The consolidator ----

  lemma {:induction false} OneMoreBar(bars: seq<TradeBar>, bar: TradeBar, n: nat)
    requires n > 0
    ensures var rest := Rest(bars, n) + [bar];
            && Blocks(bars + [bar], n) == Blocks(bars, n) + (if |rest| == n then [MergeAll(rest)] else [])
            && Rest(bars + [bar], n) == if |rest| == n then [] else rest
    decreases |bars|
  {
    if |bars| < n {
      if |bars| + 1 == n {
        var all := bars + [bar];
        assert all[..n] == all && all[n..] == [];
      }
    } else {
      assert (bars + [bar])[..n] == bars[..n] && (bars + [bar])[n..] == bars[n..] + [bar];
      OneMoreBar(bars[n..], bar, n);
    }
  }

  class TradeBarConsolidator {
    const n: nat
    var working: Option<TradeBar>
    var barCount: nat

    /** The working bar merges the inputs that have not been emitted. */
    ghost predicate Holds(rest: seq<TradeBar>)
      reads this
    {
      && 0 < n && barCount == |rest| < n
      && working == if rest == [] then None else Some(MergeAll(rest))
    }

    constructor (n: nat)
      requires n > 0
      ensures Holds([]) && this.n == n
    {
      this.n := n;
      working, barCount := None, 0;
    }

    method Update(bar: TradeBar, ghost rest: seq<TradeBar>) returns (emitted: Option<TradeBar>)
      requires Holds(rest)
      modifies this
      ensures emitted == if |rest| + 1 == n then Some(MergeAll(rest + [bar])) else None
      ensures Holds(if |rest| + 1 == n then [] else rest + [bar])
    {
      match working {
        case None =>
          working := Some(bar);
          barCount := 1;
        case Some(w) =>
          working := Some(Merge(w, bar));
          barCount := barCount + 1;
      }
      assert (rest + [bar])[..|rest|] == rest;
      if barCount >= n {
        barCount := 0;
        emitted := working;
        working := None;
      } else {
        emitted := None;
      }
    }

    method Reset()
      requires 0 < n
      modifies this
      ensures Holds([])
    {
      working, barCount := None, 0;
    }

    /** The consolidated volume still in the working bar. */
    method WorkingVolume(ghost rest: seq<TradeBar>) returns (volume: real)
      requires Holds(rest)
      ensures volume == Volume(rest)
    {
      if rest != [] {
        MergedBar(rest);
      }
      volume := if working.Some? then working.value.volume else 0.0;
    }
  }

  /** Over a run from a fresh consolidator, the emitted bars are the full blocks of the input. */
  method Consolidate(bars: seq<TradeBar>, n: nat) returns (emitted: seq<TradeBar>, held: real)
    requires n > 0
    ensures emitted == Blocks(bars, n)
    ensures Volume(emitted) + held == Volume(bars)
  {
    var c := new TradeBarConsolidator(n);
    emitted := [];
    for i := 0 to |bars|
      invariant c.n == n && c.Holds(Rest(bars[..i], n))
      invariant emitted == Blocks(bars[..i], n)
    {
      OneMoreBar(bars[..i], bars[i], n);
      assert bars[..i + 1] == bars[..i] + [bars[i]];
      var out := c.Update(bars[i], Rest(bars[..i], n));
      if out.Some? { emitted := emitted + [out.value]; }
    }
    assert bars[..|bars|] == bars;
    held := c.WorkingVolume(Rest(bars, n));
    VolumeIsKept(bars, n);
  }

  /** One more bar through two consolidators, the second fed by the first. */
  method Chain(inner: TradeBarConsolidator, outer: TradeBarConsolidator, bar: TradeBar, ghost bars: seq<TradeBar>)
    returns (block: Option<TradeBar>)
    requires inner != outer && inner.n > 0 && outer.n > 0
    requires inner.Holds(Rest(bars, inner.n)) && outer.Holds(Rest(Blocks(bars, inner.n), outer.n))
    modifies inner, outer
    ensures inner.Holds(Rest(bars + [bar], inner.n))
    ensures outer.Holds(Rest(Blocks(bars + [bar], inner.n), outer.n))
    ensures Blocks(Blocks(bars + [bar], inner.n), outer.n)
         == Blocks(Blocks(bars, inner.n), outer.n) + if block.Some? then [block.value] else []
  {
    OneMoreBar(bars, bar, inner.n);
    var out := inner.Update(bar, Rest(bars, inner.n));
    block := None;
    if out.Some? {
      ghost var between := Blocks(bars, inner.n);
      OneMoreBar(between, out.value, outer.n);
      assert Blocks(bars + [bar], inner.n) == between + [out.value];
      block := outer.Update(out.value, Rest(between, outer.n));
    } else {
      assert Blocks(bars + [bar], inner.n) == Blocks(bars, inner.n);
    }
  }

  /** One consolidator feeding another emits what a single one of the product would. */
  method ConsolidateTwice(bars: seq<TradeBar>, n: nat, m: nat) returns (emitted: seq<TradeBar>)
    requires n > 0 && m > 0
    ensures emitted == Blocks(bars, n * m)
  {
    var inner := new TradeBarConsolidator(n);
    var outer := new TradeBarConsolidator(m);
    emitted := [];
    for i := 0 to |bars|
      invariant inner.n == n && inner.Holds(Rest(bars[..i], n)) && inner != outer
      invariant outer.n == m && outer.Holds(Rest(Blocks(bars[..i], n), m))
      invariant emitted == Blocks(Blocks(bars[..i], n), m)
    {
      assert bars[..i + 1] == bars[..i] + [bars[i]];
      var block := Chain(inner, outer, bars[i], bars[..i]);
      if block.Some? { emitted := emitted + [block.value]; }
    }
    assert bars[..|bars|] == bars;
    BlocksCompose(bars, n, m);
  }
}
