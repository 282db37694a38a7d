/** Price bars (src/data/bar.ts). */
module Bars {
  datatype Bar = Bar(timestamp: int, open: real, high: real, low: real, close: real, volume: real)

  predicate ValidBar(b: Bar) {
    b.low <= b.high && b.low <= b.open <= b.high && b.low <= b.close <= b.high && b.volume >= 0.0
  }

  predicate AllValid(bars: seq<Bar>) {
    forall b :: b in bars ==> ValidBar(b)
  }
}

/** Aggregation to a coarser timeframe (src/data/request-system.ts, aggregateBars). */
module BarAggregation {
  import opened Bars
  import opened Arithmetic

  /** Maximum high, minimum low and total volume over a chunk, as the source's folds compute them. */
  function MaxHigh(chunk: seq<Bar>): real
    requires chunk != []
  {
    if |chunk| == 1 then chunk[0].high else Max(MaxHigh(chunk[..|chunk| - 1]), chunk[|chunk| - 1].high)
  }

  function MinLow(chunk: seq<Bar>): real
    requires chunk != []
  {
    if |chunk| == 1 then chunk[0].low else Min(MinLow(chunk[..|chunk| - 1]), chunk[|chunk| - 1].low)
  }

  function Volume(chunk: seq<Bar>): real {
    if chunk == [] then 0.0 else Volume(chunk[..|chunk| - 1]) + chunk[|chunk| - 1].volume
  }

  function Combine(chunk: seq<Bar>): Bar
    requires chunk != []
  {
    Bar(chunk[0].timestamp, chunk[0].open, MaxHigh(chunk), MinLow(chunk), chunk[|chunk| - 1].close, Volume(chunk))
  }

  function First(bars: seq<Bar>, n: nat): seq<Bar> {
    if n <= |bars| then bars[..n] else bars
  }

  function Rest(bars: seq<Bar>, n: nat): seq<Bar> {
    if n <= |bars| then bars[n..] else []
  }

  /** Consecutive chunks of `ratio` bars, the last one possibly shorter. */
  function Aggregated(bars: seq<Bar>, ratio: nat): seq<Bar>
    requires ratio > 0
    decreases |bars|
  {
    if bars == [] then [] else [Combine(First(bars, ratio))] + Aggregated(Rest(bars, ratio), ratio)
  }

  /** Math.round(targetMs / sourceMs). */
  function Ratio(sourceMs: nat, targetMs: nat): (ratio: nat)
    requires 0 < sourceMs <= targetMs
    ensures ratio > 0
  {
    RatioPositive(sourceMs, targetMs);
    (2 * targetMs + sourceMs) / (2 * sourceMs)
  }

  lemma RatioPositive(sourceMs: nat, targetMs: nat)
    requires 0 < sourceMs <= targetMs
    ensures (2 * targetMs + sourceMs) / (2 * sourceMs) > 0
  {
    DivMod(2 * targetMs + sourceMs, 2 * sourceMs);
  }

  /** The chunk at i, and what follows it. */
  lemma RestAt(bars: seq<Bar>, i: nat, n: nat)
    ensures Rest(bars, 0) == bars
    ensures i < |bars| ==>
      && Rest(bars, i) != []
      && First(Rest(bars, i), n) == bars[i..if i + n <= |bars| then i + n else |bars|]
    ensures i >= |bars| ==> Rest(bars, i) == []
    ensures Rest(Rest(bars, i), n) == Rest(bars, i + n)
  {
  }

  method AggregateBars(bars: seq<Bar>, sourceMs: nat, targetMs: nat) returns (result: seq<Bar>)
    requires 0 < sourceMs < targetMs
    ensures result == Aggregated(bars, Ratio(sourceMs, targetMs))
  {
    hide Combine, Ratio, First, Rest;
    var ratio := Ratio(sourceMs, targetMs);
    result := [];
    var i := 0;
    RestAt(bars, 0, ratio);
    while i < |bars|
      invariant result + Aggregated(Rest(bars, i), ratio) == Aggregated(bars, ratio)
      decreases |bars| - i
    {
      var end := if i + ratio <= |bars| then i + ratio else |bars|;
      var chunk := bars[i..end];
      RestAt(bars, i, ratio);
      result := result + [Combine(chunk)];
      i := i + ratio;
    }
    RestAt(bars, i, ratio);
  }

  // ----- Folding a concatenation -----

  lemma {:induction false} CombineConcat(a: seq<Bar>, b: seq<Bar>)
    requires a != [] && b != []
    ensures MaxHigh(a + b) == Max(MaxHigh(a), MaxHigh(b))
    ensures MinLow(a + b) == Min(MinLow(a), MinLow(b))
  {
    var m := |b| - 1;
    assert (a + b)[..|a + b| - 1] == a + b[..m];
    if m == 0 {
      assert a + b[..0] == a;
    } else {
      CombineConcat(a, b[..m]);
    }
  }

  lemma {:induction false} VolumeConcat(a: seq<Bar>, b: seq<Bar>)
    ensures Volume(a + b) == Volume(a) + Volume(b)
  {
    if b == [] {
      assert a + b == a;
    } else {
      var m := |b| - 1;
      assert (a + b)[..|a + b| - 1] == a + b[..m];
      VolumeConcat(a, b[..m]);
    }
  }

  lemma SingleCombine(b: Bar)
    ensures Combine([b]) == b
  {
    assert [b][..0] == [] && Volume([b]) == Volume([b][..0]) + b.volume;
  }

  /** Combining the aggregate of a chunk is combining the chunk. */
  lemma {:induction false} CombineAggregated(bars: seq<Bar>, ratio: nat)
    requires ratio > 0 && bars != []
    ensures Aggregated(bars, ratio) != []
    ensures Combine(Aggregated(bars, ratio)) == Combine(bars)
    decreases |bars|
  {
    var head, tail := First(bars, ratio), Rest(bars, ratio);
    assert bars == head + tail;
    if tail == [] {
      assert head == bars && Aggregated(tail, ratio) == [];
      assert Aggregated(bars, ratio) == [Combine(bars)];
      SingleCombine(Combine(bars));
    } else {
      CombineAggregated(tail, ratio);
      var rest := Aggregated(tail, ratio);
      CombineConcat([Combine(head)], rest);
      CombineConcat(head, tail);
      VolumeConcat([Combine(head)], rest);
      VolumeConcat(head, tail);
      assert Volume([Combine(head)]) == Volume(head);
    }
  }

  // ----- Chunks line up -----

  lemma OneMoreChunk(r1: nat, r2: nat)
    requires r2 > 0
    ensures r1 * r2 == r1 + r1 * (r2 - 1)
  {
  }

  /** The first r2 aggregates are the aggregates of the first r1 * r2 bars. */
  lemma {:induction false} ChunksLineUp(bars: seq<Bar>, r1: nat, r2: nat, n: nat)
    requires r1 > 0 && n == r1 * r2
    ensures First(Aggregated(bars, r1), r2) == Aggregated(First(bars, n), r1)
    ensures Rest(Aggregated(bars, r1), r2) == Aggregated(Rest(bars, n), r1)
    decreases r2
  {
    hide Combine;
    if r2 == 0 {
      assert First(bars, 0) == [] && Rest(bars, 0) == bars;
    } else if bars != [] {
      OneMoreChunk(r1, r2);
      var head, tail, k := First(bars, r1), Rest(bars, r1), n - r1;
      ChunksLineUp(tail, r1, r2 - 1, k);
      SplitPoints(bars, r1, k);
      FirstOfConcat(Combine(head), Aggregated(tail, r1), r2);
      AggregatedPrefix(head, First(tail, k), bars, r1);
    }
  }

  lemma SplitPoints(bars: seq<Bar>, r: nat, k: nat)
    ensures First(bars, r + k) == First(bars, r) + First(Rest(bars, r), k)
    ensures Rest(bars, r + k) == Rest(Rest(bars, r), k)
  {
  }

  lemma FirstOfConcat(b: Bar, rest: seq<Bar>, n: nat)
    requires n > 0
    ensures First([b] + rest, n) == [b] + First(rest, n - 1)
    ensures Rest([b] + rest, n) == Rest(rest, n - 1)
  {
  }

  lemma AggregatedPrefix(head: seq<Bar>, more: seq<Bar>, bars: seq<Bar>, n: nat)
    requires n > 0 && bars != [] && head == First(bars, n) && (|head| < n ==> more == [])
    ensures head + more != []
    ensures Aggregated(head + more, n) == [Combine(head)] + Aggregated(more, n)
  {
    assert First(head + more, n) == head && Rest(head + more, n) == more;
  }

  /** Aggregating by r1 and then by r2 is aggregating once by r1 * r2, ragged tails included. */
  lemma {:induction false} AggregationComposes(bars: seq<Bar>, r1: nat, r2: nat)
    requires r1 > 0 && r2 > 0
    ensures r1 * r2 > 0
    ensures Aggregated(Aggregated(bars, r1), r2) == Aggregated(bars, r1 * r2)
    decreases |bars|
  {
    assert r1 * r2 > 0;
    if bars != [] {
      var n := r1 * r2;
      ChunksLineUp(bars, r1, r2, n);
      CombineAggregated(First(bars, n), r1);
      AggregationComposes(Rest(bars, n), r1, r2);
      assert Aggregated(bars, r1) != [];
    }
  }

  /** Refining in two steps through a timeframe that divides evenly is refining in one. */
  lemma TimeframesCompose(bars: seq<Bar>, baseMs: nat, r1: nat, r2: nat)
    requires baseMs > 0 && r1 > 0 && r2 > 0
    ensures 0 < baseMs <= baseMs * r1 <= baseMs * r1 * r2
    ensures Aggregated(Aggregated(bars, Ratio(baseMs, baseMs * r1)), Ratio(baseMs * r1, baseMs * r1 * r2))
         == Aggregated(bars, Ratio(baseMs, baseMs * r1 * r2))
  {
    WholeRatio(baseMs, r1);
    WholeRatio(baseMs * r1, r2);
    AggregationComposes(bars, r1, r2);
    WholeRatio(baseMs, r1 * r2);
    assert baseMs * (r1 * r2) == baseMs * r1 * r2;
    hide Ratio, Aggregated;
  }

  lemma WholeRatio(ms: nat, r: nat)
    requires ms > 0 && r > 0
    ensures 0 < ms <= ms * r && Ratio(ms, ms * r) == r
  {
    AtLeastOnce(r, ms);
    assert 2 * (ms * r) + ms == r * (2 * ms) + ms;
    QuotientUnique(2 * (ms * r) + ms, 2 * ms, r, ms);
  }

  /** Total volume is conserved. */
  lemma {:induction false} VolumeConserved(bars: seq<Bar>, ratio: nat)
    requires ratio > 0
    ensures Volume(Aggregated(bars, ratio)) == Volume(bars)
    decreases |bars|
  {
    if bars != [] {
      CombineAggregated(bars, ratio);
    }
  }

  lemma {:induction false} CombineValid(chunk: seq<Bar>)
    requires chunk != [] && AllValid(chunk)
    ensures ValidBar(Combine(chunk))
  {
    var last := chunk[|chunk| - 1];
    assert last in chunk;
    if |chunk| > 1 {
      var front := chunk[..|chunk| - 1];
      assert forall b :: b in front ==> b in chunk;
      CombineValid(front);
    } else {
      assert Volume(chunk[..0]) == 0.0;
    }
  }

  /** Every output bar of valid bars is valid. */
  lemma {:induction false} AggregatedValid(bars: seq<Bar>, ratio: nat)
    requires ratio > 0 && AllValid(bars)
    ensures AllValid(Aggregated(bars, ratio))
    decreases |bars|
  {
    if bars != [] {
      var head, tail := First(bars, ratio), Rest(bars, ratio);
      assert bars == head + tail;
      assert forall b :: b in head || b in tail ==> b in bars;
      CombineValid(head);
      AggregatedValid(tail, ratio);
    }
  }
}
