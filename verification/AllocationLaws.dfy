/** The capital split in terms of the profits it is asked to follow (src/trading/capital-allocator.ts). */
module AllocationLaws {
  import opened Arithmetic
  import opened Prelude
  import opened CapitalAllocator

  const SCALE := 1_000_000.0

  // ----- Rounding -----

  /** A weight is the profit in millionths, rounded to the nearest whole number, halves upwards. */
  lemma ScaledWeightMeaning(world: WorldWeight)
    ensures var x := world.pnl * SCALE; x - 0.5 < ScaledWeight(world) as real <= x + 0.5
  {
  }

  /** So is the number of units that a total is worth. */
  lemma TotalUnitsMeaning(total: real, unit: real)
    requires unit > 0.0
    ensures total / unit - 0.5 < TotalUnits(total, unit) as real <= total / unit + 0.5
  {
  }

  /** Something is handed out exactly when some profit is at least half a millionth and the total half a unit. */
  lemma AllocatableMeaning(total: real, worlds: seq<WorldWeight>, unit: real)
    ensures Allocatable(total, worlds, unit) <==>
      total > 0.0 && unit > 0.0 && total / unit >= 0.5 && exists i :: 0 <= i < |worlds| && worlds[i].pnl * SCALE >= 0.5
    ensures !Allocatable(total, worlds, unit) ==> Allocation(total, worlds, unit) == map[]
  {
    PositiveWeightsMeaning(worlds);
    hide PositiveWeights, Increasing;
    if i :| 0 <= i < |worlds| && worlds[i].pnl * SCALE >= 0.5 {
      ScaledWeightMeaning(worlds[i]);
      assert Entry(worlds[i].id, ScaledWeight(worlds[i]), i) in PositiveWeights(worlds);
    }
    if PositiveWeights(worlds) != [] {
      var e := PositiveWeights(worlds)[0];
      assert EntryOf(e, worlds);
      ScaledWeightMeaning(worlds[e.idx]);
    }
  }

  /** An awarded world lost a larger fraction than one that is not, or as much with more weight, or comes earlier. */
  lemma AwardedComeFirst(total: real, worlds: seq<WorldWeight>, unit: real, s: Share, t: Share)
    requires Allocatable(total, worlds, unit)
    requires s in CallAwarded(total, worlds, unit)
    requires t in CallShares(total, worlds, unit) && t !in CallAwarded(total, worlds, unit)
    ensures || s.remainder > t.remainder
            || (s.remainder == t.remainder && s.w > t.w)
            || (s.remainder == t.remainder && s.w == t.w && s.idx <= t.idx)
  {
    var shares, awarded := CallShares(total, worlds, unit), CallAwarded(total, worlds, unit);
    CallSplit(total, worlds, unit);
    SplitIsFair(PositiveWeights(worlds), TotalUnits(total, unit), shares, awarded);
    hide CallShares, CallAwarded, PositiveWeights, TotalUnits, SplitOf, SumW;
    assert Before(s, t);
  }

  // ----- Weights that are exact -----

  /** Every profit is a whole number of millionths, so that no weight is rounded. */
  predicate Millionths(worlds: seq<WorldWeight>) {
    forall i :: 0 <= i < |worlds| ==> (worlds[i].pnl * SCALE).Floor as real == worlds[i].pnl * SCALE
  }

  /** The profits of the worlds that made one. */
  function SumPnl(worlds: seq<WorldWeight>): real {
    if worlds == [] then 0.0
    else
      var last := worlds[|worlds| - 1];
      SumPnl(worlds[..|worlds| - 1]) + if last.pnl > 0.0 then last.pnl else 0.0
  }

  lemma ExactWeight(world: WorldWeight)
    requires (world.pnl * SCALE).Floor as real == world.pnl * SCALE
    ensures ScaledWeight(world) as real == world.pnl * SCALE
    ensures ScaledWeight(world) > 0 <==> world.pnl > 0.0
  {
    RoundWhole(world.pnl * SCALE);
  }

  lemma {:induction false} SumWIsSumPnl(worlds: seq<WorldWeight>)
    requires Millionths(worlds)
    ensures SumW(PositiveWeights(worlds)) as real == SCALE * SumPnl(worlds)
  {
    hide ScaledWeight;
    if worlds != [] {
      var m := |worlds| - 1;
      assert forall i :: 0 <= i < m ==> worlds[..m][i] == worlds[i];
      SumWIsSumPnl(worlds[..m]);
      ExactWeight(worlds[m]);
      var front := PositiveWeights(worlds[..m]);
      if worlds[m].pnl > 0.0 {
        assert PositiveWeights(worlds) == front + [Entry(worlds[m].id, ScaledWeight(worlds[m]), m)];
        assert PositiveWeights(worlds)[..|front|] == front;
      }
    }
  }

  /** No other world with a profit has this one's id. */
  predicate Alone(worlds: seq<WorldWeight>, i: nat)
    requires i < |worlds|
  {
    && worlds[i].pnl > 0.0
    && forall k :: 0 <= k < |worlds| && worlds[k].pnl > 0.0 && worlds[k].id == worlds[i].id ==> k == i
  }

  /** The share of a world with a profit of its own. */
  lemma ShareAlone(total: real, worlds: seq<WorldWeight>, unit: real, i: nat) returns (s: Share)
    requires Allocatable(total, worlds, unit) && Millionths(worlds) && i < |worlds| && Alone(worlds, i)
    ensures s in CallShares(total, worlds, unit) && OwnId(CallShares(total, worlds, unit), s)
    ensures s.id == worlds[i].id && s.w as real == worlds[i].pnl * SCALE
  {
    hide ScaledWeight, SumW, TotalUnits, PositiveWeights, ShareOf, Alone;
    PositiveTotal(worlds);
    PositiveWeightsMeaning(worlds);
    ExactWeight(worlds[i]);
    assert worlds[i].pnl > 0.0 by {
      OnlyOne(worlds, i, i);
    }
    var entries, totalUnits, sumW := PositiveWeights(worlds), TotalUnits(total, unit), SumW(PositiveWeights(worlds));
    var shares := CallShares(total, worlds, unit);
    var e := Entry(worlds[i].id, ScaledWeight(worlds[i]), i);
    var k :| 0 <= k < |entries| && entries[k] == e;
    s := shares[k];
    assert s == ShareOf(e, totalUnits, sumW);
    forall t | t in shares && t.id == s.id
      ensures t == s
    {
      var l :| 0 <= l < |shares| && shares[l] == t;
      assert t == ShareOf(entries[l], totalUnits, sumW) && EntryOf(entries[l], worlds);
      ExactWeight(worlds[entries[l].idx]);
      OnlyOne(worlds, i, entries[l].idx);
      assert entries[l] == e;
    }
  }

  lemma OnlyOne(worlds: seq<WorldWeight>, i: nat, k: nat)
    requires i < |worlds| && k < |worlds| && Alone(worlds, i)
    ensures worlds[i].pnl > 0.0 && (worlds[k].pnl > 0.0 && worlds[k].id == worlds[i].id ==> k == i)
  {
  }

  /** How far a slice is from the share of a profit in a total, times the sum of profits. */
  function PnlDistance(slice: real, sum: real, total: real, pnl: real): real {
    Magnitude(slice * sum - total * pnl)
  }

  lemma InMillionths(slice: real, sumW: nat, total: real, w: nat, sum: real, pnl: real)
    requires sumW as real == SCALE * sum && w as real == pnl * SCALE
    ensures Distance(slice, sumW, total, w) == SCALE * PnlDistance(slice, sum, total, pnl)
  {
    var x, y := slice * sum, total * pnl;
    assert slice * sumW as real == SCALE * x;
    assert total * w as real == SCALE * y;
    assert SCALE * x - SCALE * y == SCALE * (x - y);
  }

  lemma BelowUnit(n: nat, sumW: nat, unit: real)
    requires n < sumW && unit > 0.0
    ensures n as real * unit < sumW as real * unit
  {
  }

  /**
   * Where no weight is rounded, the slice of a world is strictly within one unit of its share by profit of the rounded
   * total, and of two worlds the one with the higher profit never gets less.
   */
  lemma FairByPnl(total: real, worlds: seq<WorldWeight>, unit: real, i: nat, j: nat)
    requires Allocatable(total, worlds, unit) && Millionths(worlds)
    requires i < |worlds| && Alone(worlds, i) && j < |worlds| && Alone(worlds, j)
    ensures var slices, rounded := Allocation(total, worlds, unit), Slice(TotalUnits(total, unit), unit);
      && worlds[i].id in slices && worlds[j].id in slices
      && PnlDistance(slices[worlds[i].id], SumPnl(worlds), rounded, worlds[i].pnl) < unit * SumPnl(worlds)
      && (worlds[i].pnl > worlds[j].pnl ==> slices[worlds[i].id] >= slices[worlds[j].id])
  {
    hide Allocation, CallShares, CallAwarded, PositiveWeights, SumW, TotalUnits, OwnId, Millionths, Alone, SumPnl,
      UnitsOf, Distance, PnlDistance, Slice;
    var s := ShareAlone(total, worlds, unit, i);
    var t := ShareAlone(total, worlds, unit, j);
    SlicesAreFair(total, worlds, unit, s, t);
    SumWIsSumPnl(worlds);
    var sumW, totalUnits := SumW(PositiveWeights(worlds)), TotalUnits(total, unit);
    var units := UnitsOf(s, CallAwarded(total, worlds, unit));
    DeviationOfSlice(units, sumW, totalUnits, s.w, unit);
    BelowUnit(Abs(units * sumW - totalUnits * s.w), sumW, unit);
    InMillionths(Slice(units, unit), sumW, Slice(totalUnits, unit), s.w, SumPnl(worlds), worlds[i].pnl);
    ScaledBound(PnlDistance(Slice(units, unit), SumPnl(worlds), Slice(totalUnits, unit), worlds[i].pnl),
                sumW, SumPnl(worlds), unit);
  }

  lemma ScaledBound(x: real, sumW: nat, sum: real, unit: real)
    requires sumW as real == SCALE * sum && SCALE * x < sumW as real * unit
    ensures x < unit * sum
  {
    assert sumW as real * unit == SCALE * (unit * sum);
  }

  // ----- Optimality by profit -----

  /** Every world with a profit has a slice. */
  predicate Covers(worlds: seq<WorldWeight>, slices: map<string, real>) {
    forall i :: 0 <= i < |worlds| && worlds[i].pnl > 0.0 ==> worlds[i].id in slices
  }

  /** The distances of all worlds with a profit. */
  function PnlUnfairness(worlds: seq<WorldWeight>, slices: map<string, real>, total: real, sum: real): real
    requires Covers(worlds, slices)
  {
    if worlds == [] then 0.0
    else
      var last := worlds[|worlds| - 1];
      PnlUnfairness(worlds[..|worlds| - 1], slices, total, sum)
      + if last.pnl > 0.0 then PnlDistance(slices[last.id], sum, total, last.pnl) else 0.0
  }

  /** What the worlds with a profit are handed. */
  function Handed(worlds: seq<WorldWeight>, slices: map<string, real>): real
    requires Covers(worlds, slices)
  {
    if worlds == [] then 0.0
    else
      var last := worlds[|worlds| - 1];
      Handed(worlds[..|worlds| - 1], slices) + if last.pnl > 0.0 then slices[last.id] else 0.0
  }

  lemma UnfairnessOneMore(
      front: seq<Entry>, e: Entry, slices: map<string, real>, total: real, totalUnits: nat, sumW: nat)
    requires sumW > 0 && e.id in slices && forall s :: s in Shares(front, totalUnits, sumW) ==> s.id in slices
    ensures var shares, all := Shares(front, totalUnits, sumW), Shares(front + [e], totalUnits, sumW);
      && (forall s :: s in all ==> s.id in slices)
      && Unfairness(all, slices, total, sumW)
         == Unfairness(shares, slices, total, sumW) + Distance(slices[e.id], sumW, total, e.w)
  {
    var last := ShareOf(e, totalUnits, sumW);
    var shares, all := Shares(front, totalUnits, sumW), Shares(front + [e], totalUnits, sumW);
    assert all == shares + [last];
    assert all[..|all| - 1] == shares;
    hide Shares, ShareOf, Distance;
  }

  /** A world more, with or without a profit. */
  lemma PositiveOneMore(worlds: seq<WorldWeight>)
    requires worlds != [] && Millionths(worlds)
    ensures var m := |worlds| - 1; var front := PositiveWeights(worlds[..m]);
      && Millionths(worlds[..m])
      && PositiveWeights(worlds)
         == (if worlds[m].pnl > 0.0 then front + [Entry(worlds[m].id, ScaledWeight(worlds[m]), m)] else front)
      && (worlds[m].pnl > 0.0 ==> ScaledWeight(worlds[m]) > 0)
      && ScaledWeight(worlds[m]) as real == worlds[m].pnl * SCALE
  {
    hide ScaledWeight, Millionths;
    MillionthsMore(worlds);
  }

  lemma MillionthsMore(worlds: seq<WorldWeight>)
    requires worlds != [] && Millionths(worlds)
    ensures var last := worlds[|worlds| - 1];
      Millionths(worlds[..|worlds| - 1])
      && ScaledWeight(last) as real == last.pnl * SCALE && (ScaledWeight(last) > 0 <==> last.pnl > 0.0)
  {
    ExactWeight(worlds[|worlds| - 1]);
    hide ScaledWeight;
  }

  lemma {:induction false} UnfairnessByPnl(
      worlds: seq<WorldWeight>, slices: map<string, real>, total: real, totalUnits: nat, sumW: nat, sum: real)
    requires Millionths(worlds) && Covers(worlds, slices) && sumW > 0 && sumW as real == SCALE * sum
    ensures var shares := Shares(PositiveWeights(worlds), totalUnits, sumW);
      && (forall s :: s in shares ==> s.id in slices)
      && Unfairness(shares, slices, total, sumW) == SCALE * PnlUnfairness(worlds, slices, total, sum)
  {
    hide ScaledWeight, Distance, PnlDistance;
    if worlds == [] {
      assert Shares([], totalUnits, sumW) == [];
    } else {
      var m := |worlds| - 1;
      var last := worlds[m];
      PositiveOneMore(worlds);
      CoversFront(worlds, slices);
      hide PositiveWeights, Millionths, Covers, Shares, Unfairness;
      UnfairnessByPnl(worlds[..m], slices, total, totalUnits, sumW, sum);
      if last.pnl > 0.0 {
        var e := Entry(last.id, ScaledWeight(last), m);
        UnfairnessOneMore(PositiveWeights(worlds[..m]), e, slices, total, totalUnits, sumW);
        InMillionths(slices[last.id], sumW, total, e.w, sum, last.pnl);
      }
    }
  }

  lemma CoversFront(worlds: seq<WorldWeight>, slices: map<string, real>)
    requires worlds != [] && Covers(worlds, slices)
    ensures var m := |worlds| - 1;
      Covers(worlds[..m], slices) && (worlds[m].pnl > 0.0 ==> worlds[m].id in slices)
  {
    var m := |worlds| - 1;
    assert forall i :: 0 <= i < m ==> worlds[..m][i] == worlds[i];
  }

  lemma SumOneMore(slices: map<string, real>, ids: seq<string>, id: string)
    requires id in slices && forall k :: k in ids ==> k in slices
    ensures (forall k :: k in ids + [id] ==> k in slices)
    ensures SumSlices(slices, ids + [id]) == SumSlices(slices, ids) + slices[id]
  {
    assert (ids + [id])[..|ids|] == ids;
  }

  lemma {:induction false} HandedIsSum(worlds: seq<WorldWeight>, slices: map<string, real>, totalUnits: nat, sumW: nat)
    requires Millionths(worlds) && Covers(worlds, slices) && sumW > 0 && DistinctIds(PositiveWeights(worlds))
    ensures var shares := Shares(PositiveWeights(worlds), totalUnits, sumW);
      && (forall id :: id in KeyOrder(shares) ==> id in slices)
      && SumSlices(slices, KeyOrder(shares)) == Handed(worlds, slices)
  {
    hide ScaledWeight;
    if worlds == [] {
      assert Shares([], totalUnits, sumW) == [];
    } else {
      var m := |worlds| - 1;
      var last := worlds[m];
      PositiveOneMore(worlds);
      CoversFront(worlds, slices);
      hide PositiveWeights, Millionths, Covers, Shares, KeyOrder, SumSlices, DistinctIds;
      var front := PositiveWeights(worlds[..m]);
      if last.pnl > 0.0 {
        var e := Entry(last.id, ScaledWeight(last), m);
        OneMoreId(front, e);
        HandedIsSum(worlds[..m], slices, totalUnits, sumW);
        KeyOrderOneMore(front, e, totalUnits, sumW);
        SumOneMore(slices, KeyOrder(Shares(front, totalUnits, sumW)), e.id);
      } else {
        HandedIsSum(worlds[..m], slices, totalUnits, sumW);
      }
    }
  }

  lemma OneMoreId(front: seq<Entry>, e: Entry)
    requires DistinctIds(front + [e])
    ensures DistinctIds(front) && forall x :: x in front ==> x.id != e.id
  {
    assert forall i :: 0 <= i < |front| ==> (front + [e])[i] == front[i];
    assert (front + [e])[|front|] == e;
  }

  lemma KeyOrderOneMore(front: seq<Entry>, e: Entry, totalUnits: nat, sumW: nat)
    requires sumW > 0 && forall x :: x in front ==> x.id != e.id
    ensures KeyOrder(Shares(front + [e], totalUnits, sumW)) == KeyOrder(Shares(front, totalUnits, sumW)) + [e.id]
  {
    var shares, all := Shares(front, totalUnits, sumW), Shares(front + [e], totalUnits, sumW);
    assert all[..|front|] == shares;
    KeyOrderMeaning(shares);
    forall s | s in shares
      ensures s.id != e.id
    {
      var i :| 0 <= i < |shares| && shares[i] == s;
      assert front[i] in front;
    }
    hide ShareOf;
  }

  lemma CoversShares(total: real, worlds: seq<WorldWeight>, unit: real)
    requires Allocatable(total, worlds, unit) && Millionths(worlds)
    ensures Covers(worlds, Allocation(total, worlds, unit))
  {
    hide Allocation, ScaledWeight, PositiveWeights, SumW, TotalUnits, ShareOf;
    AllocationMeaning(total, worlds, unit);
    PositiveWeightsMeaning(worlds);
    PositiveTotal(worlds);
    var entries, shares := PositiveWeights(worlds), CallShares(total, worlds, unit);
    forall i | 0 <= i < |worlds| && worlds[i].pnl > 0.0
      ensures worlds[i].id in Allocation(total, worlds, unit)
    {
      ExactWeight(worlds[i]);
      var e := Entry(worlds[i].id, ScaledWeight(worlds[i]), i);
      var k :| 0 <= k < |entries| && entries[k] == e;
      assert shares[k] in shares && shares[k].id == worlds[i].id;
    }
  }

  /**
   * Where no weight is rounded and ids are distinct, no slices of whole units that hand out as much are nearer to the
   * shares by profit than those returned.
   */
  lemma OptimalByPnl(total: real, worlds: seq<WorldWeight>, unit: real, other: map<string, real>)
    requires Allocatable(total, worlds, unit) && Millionths(worlds) && DistinctIds(PositiveWeights(worlds))
    requires WholeUnits(other, unit) && Covers(worlds, other)
    requires Handed(worlds, other) == TotalUnits(total, unit) as real * unit
    ensures var slices, rounded := Allocation(total, worlds, unit), TotalUnits(total, unit) as real * unit;
      && Covers(worlds, slices)
      && PnlUnfairness(worlds, slices, rounded, SumPnl(worlds)) <= PnlUnfairness(worlds, other, rounded, SumPnl(worlds))
  {
    hide Allocation, PositiveWeights, SumW, TotalUnits, Shares, SumSlices, KeyOrder, Handed, Covers, WholeUnits, SumPnl,
      PnlUnfairness, Unfairness, DistinctIds, Millionths, CallShares;
    var totalUnits, sumW, sum := TotalUnits(total, unit), SumW(PositiveWeights(worlds)), SumPnl(worlds);
    PositiveTotal(worlds);
    TheShares(total, worlds, unit);
    CoversShares(total, worlds, unit);
    SumWIsSumPnl(worlds);
    HandedIsSum(worlds, other, totalUnits, sumW);
    SlicesAreOptimal(total, worlds, unit, other);
    UnfairnessByPnl(worlds, Allocation(total, worlds, unit), Slice(totalUnits, unit), totalUnits, sumW, sum);
    UnfairnessByPnl(worlds, other, Slice(totalUnits, unit), totalUnits, sumW, sum);
  }

  lemma TheShares(total: real, worlds: seq<WorldWeight>, unit: real)
    requires Allocatable(total, worlds, unit)
    ensures SumW(PositiveWeights(worlds)) > 0
    ensures CallShares(total, worlds, unit)
      == Shares(PositiveWeights(worlds), TotalUnits(total, unit), SumW(PositiveWeights(worlds)))
  {
    PositiveTotal(worlds);
    hide PositiveWeights, SumW, TotalUnits;
  }

  /** A hundred over profits of three to one: seventy-five and twenty-five. */
  lemma ThreeToOne(a: string, b: string)
    requires a != b
    ensures Allocation(100.0, [WorldWeight(a, 300.0), WorldWeight(b, 100.0)], 1.0) == map[a := 75.0, b := 25.0]
  {
    var worlds := [WorldWeight(a, 300.0), WorldWeight(b, 100.0)];
    var x, y := Entry(a, 300_000_000, 0), Entry(b, 100_000_000, 1);
    WeightsOfTwo(a, b);
    SharesOfTwo(x, y);
    var s, t := Share(a, 300_000_000, 0, 75, 0), Share(b, 100_000_000, 1, 25, 0);
    FloorsOfTwo(s, t);
    hide ScaledWeight, PositiveWeights, SumW, Shares, SumFloors, FloorMap;
    assert TotalUnits(100.0, 1.0) == 100;
    assert Residual([x, y], 100) == 0;
    assert Awarded([s, t], 0) == [];
  }

  lemma WeightsOfTwo(a: string, b: string)
    ensures var x, y := Entry(a, 300_000_000, 0), Entry(b, 100_000_000, 1);
      && PositiveWeights([WorldWeight(a, 300.0), WorldWeight(b, 100.0)]) == [x, y]
      && SumW([x, y]) == 400_000_000
  {
    var first, second := WorldWeight(a, 300.0), WorldWeight(b, 100.0);
    assert ScaledWeight(first) == 300_000_000 && ScaledWeight(second) == 100_000_000;
    hide ScaledWeight;
    TwoEntries(first, second);
    TotalOfTwo(Entry(a, 300_000_000, 0), Entry(b, 100_000_000, 1));
  }

  lemma TwoEntries(first: WorldWeight, second: WorldWeight)
    requires ScaledWeight(first) > 0 && ScaledWeight(second) > 0
    ensures PositiveWeights([first, second])
      == [Entry(first.id, ScaledWeight(first), 0), Entry(second.id, ScaledWeight(second), 1)]
  {
    hide ScaledWeight;
    assert [first, second][..1] == [first] && [first][..0] == [];
    assert PositiveWeights([]) == [];
    assert PositiveWeights([first]) == [] + [Entry(first.id, ScaledWeight(first), 0)];
  }

  lemma TotalOfTwo(x: Entry, y: Entry)
    ensures SumW([x, y]) == x.w + y.w
  {
    assert [x, y][..1] == [x] && [x][..0] == [];
    assert SumW([]) == 0 && SumW([x]) == x.w;
  }

  lemma SharesOfTwo(x: Entry, y: Entry)
    requires x.w == 300_000_000 && y.w == 100_000_000
    ensures Shares([x, y], 100, 400_000_000)
      == [Share(x.id, x.w, x.idx, 75, 0), Share(y.id, y.w, y.idx, 25, 0)]
  {
  }

  lemma FloorsOfTwo(s: Share, t: Share)
    requires s.id != t.id && s.floorUnits == 75 && t.floorUnits == 25
    ensures SumFloors([s, t]) == 100 && FloorMap([s, t], 1.0) == map[s.id := 75.0, t.id := 25.0]
  {
    assert [s, t][..1] == [s] && [s][..0] == [];
    assert SumFloors([s]) == 75;
    assert FloorMap([s], 1.0) == map[s.id := 75.0];
  }
}
