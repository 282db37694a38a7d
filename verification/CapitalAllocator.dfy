/** Largest-remainder split of a capital figure (src/trading/capital-allocator.ts). */
module CapitalAllocator {
  import opened Arithmetic
  import opened Prelude

  datatype WorldWeight = WorldWeight(id: string, pnl: real)

  const WEIGHT_SCALE := 1_000_000.0

  /** Math.round: the nearest integer, halves upwards. */
  function Round(x: real): int {
    (x + 0.5).Floor
  }

  /** A world with a positive scaled weight and its original index. */
  datatype Entry = Entry(id: string, w: nat, idx: nat)

  function ScaledWeight(world: WorldWeight): int {
    Round(world.pnl * WEIGHT_SCALE)
  }

  predicate EntryOf(e: Entry, worlds: seq<WorldWeight>) {
    e.idx < |worlds| && e.id == worlds[e.idx].id && e.w == ScaledWeight(worlds[e.idx]) && e.w > 0
  }

  function PositiveWeights(worlds: seq<WorldWeight>): seq<Entry> {
    if worlds == [] then []
    else
      var m := |worlds| - 1;
      var front := PositiveWeights(worlds[..m]);
      var w := ScaledWeight(worlds[m]);
      if w > 0 then front + [Entry(worlds[m].id, w, m)] else front
  }

  /** Exactly the worlds of positive scaled weight are kept, in their original order. */
  lemma {:induction false} PositiveWeightsMeaning(worlds: seq<WorldWeight>)
    ensures forall e :: e in PositiveWeights(worlds) ==> EntryOf(e, worlds)
    ensures forall i :: 0 <= i < |worlds| && ScaledWeight(worlds[i]) > 0 ==>
      Entry(worlds[i].id, ScaledWeight(worlds[i]), i) in PositiveWeights(worlds)
    ensures Increasing(PositiveWeights(worlds))
  {
    hide ScaledWeight;
    if worlds != [] {
      var m := |worlds| - 1;
      var front := PositiveWeights(worlds[..m]);
      PositiveWeightsMeaning(worlds[..m]);
      forall e | e in front
        ensures EntryOf(e, worlds) && e.idx < m
      {
        assert EntryOf(e, worlds[..m]);
      }
      hide EntryOf;
    }
  }

  predicate Increasing(entries: seq<Entry>) {
    forall i, j :: 0 <= i < j < |entries| ==> entries[i].idx < entries[j].idx
  }

  function SumW(entries: seq<Entry>): nat {
    if entries == [] then 0 else SumW(entries[..|entries| - 1]) + entries[|entries| - 1].w
  }

  /** A world's floored units and the exact remainder of the division. */
  datatype Share = Share(id: string, w: nat, idx: nat, floorUnits: int, remainder: int)

  function ShareOf(e: Entry, totalUnits: nat, sumW: nat): (s: Share)
    requires sumW > 0
    ensures s.id == e.id && s.w == e.w && s.idx == e.idx
  {
    Share(e.id, e.w, e.idx, (totalUnits * e.w) / sumW, totalUnits * e.w - (totalUnits * e.w) / sumW * sumW)
  }

  function Shares(entries: seq<Entry>, totalUnits: nat, sumW: nat): (shares: seq<Share>)
    requires sumW > 0
    ensures |shares| == |entries|
    ensures forall i :: 0 <= i < |entries| ==> shares[i] == ShareOf(entries[i], totalUnits, sumW)
  {
    seq(|entries|, i requires 0 <= i < |entries| => ShareOf(entries[i], totalUnits, sumW))
  }

  function SumFloors(shares: seq<Share>): int {
    if shares == [] then 0 else SumFloors(shares[..|shares| - 1]) + shares[|shares| - 1].floorUnits
  }

  // ----- The award order -----

  /** Largest remainder first, then largest weight, then earliest index. */
  predicate Before(a: Share, b: Share) {
    if a.remainder != b.remainder then a.remainder > b.remainder
    else if a.w != b.w then a.w > b.w
    else a.idx <= b.idx
  }

  predicate Ordered(s: seq<Share>) {
    forall i, j :: 0 <= i < j < |s| ==> Before(s[i], s[j])
  }

  function Insert(x: Share, s: seq<Share>): (r: seq<Share>)
    ensures multiset(r) == multiset(s) + multiset{x}
  {
    if s == [] || Before(x, s[0]) then [x] + s
    else
      assert s == [s[0]] + s[1..];
      [s[0]] + Insert(x, s[1..])
  }

  lemma {:induction false} InsertOrdered(x: Share, s: seq<Share>)
    requires Ordered(s)
    ensures Ordered(Insert(x, s))
  {
    if s == [] || Before(x, s[0]) {
    } else {
      InsertOrdered(x, s[1..]);
      var rest := Insert(x, s[1..]);
      forall y | y in rest
        ensures Before(s[0], y)
      {
        assert y in multiset(rest);
        assert y in s[1..] || y == x;
      }
      hide Before, Insert;
    }
  }

  /** The sorted copy of the shares. */
  function AwardOrder(shares: seq<Share>): (r: seq<Share>)
    ensures multiset(r) == multiset(shares) && |r| == |shares|
  {
    if shares == [] then []
    else
      var m := |shares| - 1;
      assert shares == shares[..m] + [shares[m]];
      var r := Insert(shares[m], AwardOrder(shares[..m]));
      assert |multiset(r)| == |multiset(shares)|;
      r
  }

  lemma {:induction false} AwardOrderOrdered(shares: seq<Share>)
    ensures Ordered(AwardOrder(shares))
  {
    if shares != [] {
      AwardOrderOrdered(shares[..|shares| - 1]);
      InsertOrdered(shares[|shares| - 1], AwardOrder(shares[..|shares| - 1]));
    }
  }

  // ----- The allocation -----

  /** A whole number of units in capital terms. */
  function Slice(units: int, unit: real): real {
    units as real * unit
  }

  function FloorMap(shares: seq<Share>, unit: real): map<string, real> {
    if shares == [] then map[]
    else
      var last := shares[|shares| - 1];
      FloorMap(shares[..|shares| - 1], unit)[last.id := Slice(last.floorUnits, unit)]
  }

  /** Hand one more unit to each of the listed shares. */
  function AwardMap(slices: map<string, real>, awarded: seq<Share>, unit: real): map<string, real> {
    if awarded == [] then slices
    else
      var front := AwardMap(slices, awarded[..|awarded| - 1], unit);
      var id := awarded[|awarded| - 1].id;
      front[id := (if id in front then front[id] else 0.0) + unit]
  }

  /** The shares that receive a residual unit. */
  function Awarded(shares: seq<Share>, residual: nat): seq<Share>
    requires residual <= |shares|
  {
    AwardOrder(shares)[..residual]
  }

  function TotalUnits(total: real, unit: real): int
    requires unit > 0.0
  {
    Round(total / unit)
  }

  /** There is something to split: a positive total of at least one unit, and a positive weight. */
  predicate Allocatable(total: real, worlds: seq<WorldWeight>, unit: real) {
    total > 0.0 && unit > 0.0 && PositiveWeights(worlds) != [] && TotalUnits(total, unit) > 0
  }

  lemma {:induction false} SumWPositive(entries: seq<Entry>)
    requires entries != [] && forall e :: e in entries ==> e.w > 0
    ensures SumW(entries) > 0
  {
    assert entries[|entries| - 1] in entries;
  }

  lemma PositiveTotal(worlds: seq<WorldWeight>)
    requires PositiveWeights(worlds) != []
    ensures SumW(PositiveWeights(worlds)) > 0
  {
    PositiveWeightsMeaning(worlds);
    SumWPositive(PositiveWeights(worlds));
  }

  /** The remainders add up to the residual times the total weight, so the residual is smaller than the list. */
  lemma {:induction false} RemaindersSum(entries: seq<Entry>, totalUnits: nat, sumW: nat)
    requires sumW > 0
    ensures SumRemainders(Shares(entries, totalUnits, sumW))
      == totalUnits * SumW(entries) - SumFloors(Shares(entries, totalUnits, sumW)) * sumW
  {
    var shares := Shares(entries, totalUnits, sumW);
    if entries != [] {
      var m := |entries| - 1;
      RemaindersSum(entries[..m], totalUnits, sumW);
      assert shares[..m] == Shares(entries[..m], totalUnits, sumW);
      Distribute(totalUnits, SumW(entries[..m]), entries[m].w);
      Distribute(sumW, SumFloors(shares[..m]), shares[m].floorUnits);
    }
  }

  function SumRemainders(shares: seq<Share>): int {
    if shares == [] then 0 else SumRemainders(shares[..|shares| - 1]) + shares[|shares| - 1].remainder
  }

  lemma ShareRemainder(e: Entry, totalUnits: nat, sumW: nat)
    requires sumW > 0
    ensures var s := ShareOf(e, totalUnits, sumW);
      0 <= s.remainder < sumW && s.floorUnits >= 0 && s.floorUnits * sumW + s.remainder == totalUnits * e.w
  {
    DivMod(totalUnits * e.w, sumW);
  }

  lemma {:induction false} RemainderBounds(shares: seq<Share>, sumW: nat)
    requires forall s :: s in shares ==> 0 <= s.remainder < sumW
    ensures 0 <= SumRemainders(shares) && (shares != [] ==> SumRemainders(shares) < |shares| * sumW)
  {
    if shares != [] {
      var m := |shares| - 1;
      assert shares[m] in shares;
      RemainderBounds(shares[..m], sumW);
      Distribute(sumW, m, 1);
    }
  }

  /** The residual loop never runs past its list. */
  lemma ResidualBound(entries: seq<Entry>, totalUnits: nat)
    requires entries != [] && SumW(entries) > 0
    ensures var shares := Shares(entries, totalUnits, SumW(entries));
      && 0 <= totalUnits - SumFloors(shares) < |shares|
      && SumRemainders(shares) == (totalUnits - SumFloors(shares)) * SumW(entries)
  {
    hide ShareOf, SumFloors, SumRemainders, SumW;
    var sumW := SumW(entries);
    var shares := Shares(entries, totalUnits, sumW);
    RemaindersSum(entries, totalUnits, sumW);
    forall s | s in shares
      ensures 0 <= s.remainder < sumW
    {
      var i :| 0 <= i < |shares| && shares[i] == s;
      ShareRemainder(entries[i], totalUnits, sumW);
    }
    RemainderBounds(shares, sumW);
    BoundedFactor(totalUnits, SumFloors(shares), |shares|, sumW);
  }

  lemma BoundedFactor(t: int, f: int, n: int, d: nat)
    requires 0 <= t * d - f * d < n * d
    ensures 0 <= t - f < n && t * d - f * d == (t - f) * d
  {
    assert t * d - f * d == (t - f) * d;
    CompareFactors(t - f, n, d);
  }

  lemma CompareFactors(k: int, n: int, d: nat)
    requires 0 <= k * d < n * d
    ensures 0 <= k < n
  {
  }

  function Residual(entries: seq<Entry>, totalUnits: nat): (r: nat)
    requires entries != [] && SumW(entries) > 0
    ensures r < |entries|
  {
    ResidualBound(entries, totalUnits);
    totalUnits - SumFloors(Shares(entries, totalUnits, SumW(entries)))
  }

  lemma ResidualOf(entries: seq<Entry>, totalUnits: nat)
    requires entries != [] && SumW(entries) > 0
    ensures var shares := Shares(entries, totalUnits, SumW(entries));
      && totalUnits - SumFloors(shares) == Residual(entries, totalUnits)
      && Awarded(shares, Residual(entries, totalUnits)) == AwardOrder(shares)[..Residual(entries, totalUnits)]
  {
  }

  function Allocation(total: real, worlds: seq<WorldWeight>, unit: real): map<string, real> {
    if !Allocatable(total, worlds, unit) then map[]
    else
      var entries, totalUnits := PositiveWeights(worlds), TotalUnits(total, unit);
      PositiveTotal(worlds);
      var shares := Shares(entries, totalUnits, SumW(entries));
      AwardMap(FloorMap(shares, unit), Awarded(shares, Residual(entries, totalUnits)), unit)
  }

  method AllocateCapital(total: real, worlds: seq<WorldWeight>, unit: real) returns (result: map<string, real>)
    ensures result == Allocation(total, worlds, unit)
  {
    hide ShareOf, AwardOrder, TotalUnits, PositiveWeights, SumW, Residual, Awarded, Increasing, Slice, EntryOf;
    result := map[];
    if !(total > 0.0) || !(unit > 0.0) {
      return;
    }
    var indexed := PositiveWeights(worlds);
    if |indexed| == 0 {
      return;
    }
    var sumW := SumW(indexed);
    PositiveTotal(worlds);
    var totalUnits := TotalUnits(total, unit);
    if totalUnits <= 0 {
      return;
    }
    var allocatedUnits := 0;
    var shares: seq<Share> := [];
    ghost var all := Shares(indexed, totalUnits, sumW);
    for i := 0 to |indexed|
      invariant shares == all[..i]
      invariant result == FloorMap(all[..i], unit)
      invariant allocatedUnits == SumFloors(all[..i])
    {
      var share := ShareOf(indexed[i], totalUnits, sumW);
      assert all[..i + 1][..i] == all[..i] && all[i] == share;
      result := result[indexed[i].id := Slice(share.floorUnits, unit)];
      allocatedUnits := allocatedUnits + share.floorUnits;
      shares := shares + [share];
    }
    assert shares == all;
    var residual := totalUnits - allocatedUnits;
    ResidualOf(indexed, totalUnits);
    var floors := result;
    if residual > 0 {
      var order := AwardOrder(shares);
      for i := 0 to residual
        invariant result == AwardMap(floors, order[..i], unit)
      {
        var target := order[i];
        assert order[..i + 1][..i] == order[..i];
        result := result[target.id := (if target.id in result then result[target.id] else 0.0) + unit];
      }
    }
  }

  // ----- Who is awarded -----

  function Bonus(s: Share, awarded: seq<Share>): int {
    if s in awarded then 1 else 0
  }

  function UnitsOf(s: Share, awarded: seq<Share>): int {
    s.floorUnits + Bonus(s, awarded)
  }

  function SumUnits(shares: seq<Share>, awarded: seq<Share>): int {
    if shares == [] then 0
    else SumUnits(shares[..|shares| - 1], awarded) + UnitsOf(shares[|shares| - 1], awarded)
  }

  function CountIn(shares: seq<Share>, awarded: seq<Share>): int {
    if shares == [] then 0
    else CountIn(shares[..|shares| - 1], awarded) + Bonus(shares[|shares| - 1], awarded)
  }

  lemma {:induction false} SumUnitsSplit(shares: seq<Share>, awarded: seq<Share>)
    ensures SumUnits(shares, awarded) == SumFloors(shares) + CountIn(shares, awarded)
  {
    if shares != [] {
      SumUnitsSplit(shares[..|shares| - 1], awarded);
    }
  }

  lemma {:induction false} CountOneMore(shares: seq<Share>, awarded: seq<Share>, x: Share)
    requires NoRepeats(shares) && x !in awarded
    ensures CountIn(shares, awarded + [x]) == CountIn(shares, awarded) + (if x in shares then 1 else 0)
  {
    if shares != [] {
      var m := |shares| - 1;
      CountOneMore(shares[..m], awarded, x);
      assert shares == shares[..m] + [shares[m]];
    }
  }

  lemma {:induction false} CountNone(shares: seq<Share>)
    ensures CountIn(shares, []) == 0
  {
    if shares != [] {
      CountNone(shares[..|shares| - 1]);
    }
  }

  lemma {:induction false} CountAll(shares: seq<Share>, awarded: seq<Share>)
    requires NoRepeats(shares) && NoRepeats(awarded) && forall s :: s in awarded ==> s in shares
    ensures CountIn(shares, awarded) == |awarded|
  {
    if awarded == [] {
      CountNone(shares);
    } else {
      var m := |awarded| - 1;
      CountAll(shares, awarded[..m]);
      assert awarded == awarded[..m] + [awarded[m]];
      CountOneMore(shares, awarded[..m], awarded[m]);
    }
  }

  lemma SortedNoRepeats(a: seq<Share>, b: seq<Share>)
    requires NoRepeats(a) && multiset(a) == multiset(b)
    ensures NoRepeats(b)
  {
    forall i, j | 0 <= i < j < |b|
      ensures b[i] != b[j]
    {
      if b[i] == b[j] {
        assert b == b[..j] + [b[j]] + b[j + 1..] && b[i] in b[..j];
        assert multiset(b)[b[j]] >= 2;
        SingleCount(a, b[j]);
      }
    }
  }

  lemma {:induction false} SingleCount(a: seq<Share>, x: Share)
    requires NoRepeats(a)
    ensures multiset(a)[x] <= 1
  {
    if a != [] {
      var m := |a| - 1;
      SingleCount(a[..m], x);
      assert a == a[..m] + [a[m]];
    }
  }

  /** The awarded shares: distinct, as many as the residual, and before every other share in the award order. */
  lemma AwardedMeaning(shares: seq<Share>, residual: nat)
    requires NoRepeats(shares) && residual <= |shares|
    ensures var awarded := Awarded(shares, residual);
      && |awarded| == residual && NoRepeats(awarded)
      && (forall s :: s in awarded ==> s in shares)
      && (forall s, t :: s in awarded && t in shares && t !in awarded ==> Before(s, t))
  {
    var order := AwardOrder(shares);
    AwardOrderOrdered(shares);
    SortedNoRepeats(shares, order);
    assert forall s :: s in order <==> s in multiset(order);
    assert forall s :: s in shares <==> s in multiset(shares);
    forall s, t | s in order[..residual] && t in shares && t !in order[..residual]
      ensures Before(s, t)
    {
      assert t in order;
      var i :| 0 <= i < residual && order[i] == s;
      var j :| 0 <= j < |order| && order[j] == t;
      assert forall k :: 0 <= k < residual ==> order[k] in order[..residual];
    }
    hide Before, AwardOrder;
  }

  // ----- The split of one call -----

  /** The shares and the awarded ones for a positive number of units. */
  ghost predicate SplitOf(entries: seq<Entry>, totalUnits: nat, shares: seq<Share>, awarded: seq<Share>) {
    && entries != [] && Increasing(entries) && SumW(entries) > 0
    && shares == Shares(entries, totalUnits, SumW(entries))
    && awarded == Awarded(shares, Residual(entries, totalUnits))
  }

  /** What the proofs use of a split: division facts, and who is awarded. */
  ghost predicate FairSplit(shares: seq<Share>, awarded: seq<Share>, totalUnits: nat, sumW: nat) {
    && sumW > 0 && NoRepeats(shares) && NoRepeats(awarded)
    && (forall s :: s in shares ==> 0 <= s.remainder < sumW && s.floorUnits * sumW + s.remainder == totalUnits * s.w)
    && (forall s :: s in awarded ==> s in shares)
    && (forall s, t :: s in awarded && t in shares && t !in awarded ==> Before(s, t))
    && SumFloors(shares) + |awarded| == totalUnits
    && SumRemainders(shares) == |awarded| * sumW
  }

  lemma SplitIsFair(entries: seq<Entry>, totalUnits: nat, shares: seq<Share>, awarded: seq<Share>)
    requires SplitOf(entries, totalUnits, shares, awarded)
    ensures FairSplit(shares, awarded, totalUnits, SumW(entries))
  {
    hide ShareOf, SumFloors, SumRemainders, SumW, Before, AwardOrder;
    var sumW := SumW(entries);
    ResidualBound(entries, totalUnits);
    assert NoRepeats(shares);
    AwardedMeaning(shares, Residual(entries, totalUnits));
    forall s | s in shares
      ensures 0 <= s.remainder < sumW && s.floorUnits * sumW + s.remainder == totalUnits * s.w
    {
      var i :| 0 <= i < |shares| && shares[i] == s;
      ShareRemainder(entries[i], totalUnits, sumW);
    }
  }

  /** All units are handed out. */
  lemma UnitsAddUp(shares: seq<Share>, awarded: seq<Share>, totalUnits: nat, sumW: nat)
    requires FairSplit(shares, awarded, totalUnits, sumW)
    ensures SumUnits(shares, awarded) == totalUnits
  {
    SumUnitsSplit(shares, awarded);
    CountAll(shares, awarded);
  }

  lemma {:induction false} RemaindersBelow(shares: seq<Share>, others: seq<Share>, sumW: nat)
    requires sumW > 0
    requires forall s :: s in shares ==> s.remainder < sumW && (s !in others ==> s.remainder <= 0)
    ensures SumRemainders(shares) <= CountIn(shares, others) * (sumW - 1)
  {
    if shares != [] {
      var m := |shares| - 1;
      assert shares[m] in shares;
      RemaindersBelow(shares[..m], others, sumW);
      Distribute(sumW - 1, CountIn(shares[..m], others), Bonus(shares[m], others));
    }
  }

  lemma WithoutOne(awarded: seq<Share>, s: Share) returns (others: seq<Share>)
    requires NoRepeats(awarded) && s in awarded
    ensures |others| == |awarded| - 1 && NoRepeats(others)
    ensures forall t :: t in others <==> t in awarded && t != s
  {
    var k :| 0 <= k < |awarded| && awarded[k] == s;
    others := awarded[..k] + awarded[k + 1..];
    forall t | t in awarded && t != s
      ensures t in others
    {
      var j :| 0 <= j < |awarded| && awarded[j] == t;
      assert t == (if j < k then others[j] else others[j - 1]);
    }
  }

  /** Only shares that lost a fraction are awarded a unit. */
  lemma AwardedLostAFraction(shares: seq<Share>, awarded: seq<Share>, totalUnits: nat, sumW: nat, s: Share)
    requires FairSplit(shares, awarded, totalUnits, sumW) && s in awarded
    ensures s.remainder > 0
  {
    hide SumFloors, SumRemainders, CountIn;
    if s.remainder <= 0 {
      var others := WithoutOne(awarded, s);
      forall t | t in shares && t !in others
        ensures t.remainder <= 0
      {
        assert t == s || Before(s, t);
      }
      RemaindersBelow(shares, others, sumW);
      CountAll(shares, others);
      TooFewRemainders(|awarded|, sumW);
      assert false;
    }
  }

  lemma TooFewRemainders(n: nat, d: nat)
    requires n > 0 && d > 0
    ensures (n - 1) * (d - 1) < n * d
  {
    assert (n - 1) * (d - 1) == n * d - n - d + 1;
  }

  /** Each slice is strictly within one unit of the exact proportional share w * totalUnits / sumW. */
  lemma WithinOneUnit(shares: seq<Share>, awarded: seq<Share>, totalUnits: nat, sumW: nat, s: Share)
    requires FairSplit(shares, awarded, totalUnits, sumW) && s in shares
    ensures Abs(UnitsOf(s, awarded) * sumW - totalUnits * s.w) < sumW
  {
    hide SumFloors, SumRemainders, Before;
    Distribute(sumW, s.floorUnits, Bonus(s, awarded));
    if s in awarded {
      AwardedLostAFraction(shares, awarded, totalUnits, sumW, s);
    }
  }

  /** A larger scaled weight never gets a smaller slice. */
  lemma WeightMonotone(shares: seq<Share>, awarded: seq<Share>, totalUnits: nat, sumW: nat, s: Share, t: Share)
    requires FairSplit(shares, awarded, totalUnits, sumW) && s in shares && t in shares && s.w > t.w
    ensures UnitsOf(s, awarded) >= UnitsOf(t, awarded)
  {
    hide SumFloors, SumRemainders;
    LargerProduct(totalUnits, s.w, t.w);
    OrderedQuotients(s.floorUnits, s.remainder, t.floorUnits, t.remainder, sumW);
  }

  lemma LargerProduct(k: nat, a: nat, b: nat)
    requires a > b
    ensures k * a >= k * b && (k > 0 ==> k * a > k * b)
  {
  }

  lemma OrderedQuotients(p: int, r: int, q: int, u: int, d: int)
    requires 0 <= r < d && 0 <= u < d && p * d + r >= q * d + u
    ensures p >= q
    ensures p == q ==> r >= u
    ensures p == q && p * d + r > q * d + u ==> r > u
  {
    NextMultiple(p, q, d);
  }

  // ----- Optimality -----

  /** The deviation of an integer allocation from the exact shares, in units of 1 / sumW. */
  function Deviation(shares: seq<Share>, units: seq<int>, totalUnits: nat, sumW: nat): nat
    requires |units| == |shares|
  {
    if shares == [] then 0
    else
      var m := |shares| - 1;
      Deviation(shares[..m], units[..m], totalUnits, sumW) + Abs(units[m] * sumW - totalUnits * shares[m].w)
  }

  function Sum(units: seq<int>): int {
    if units == [] then 0 else Sum(units[..|units| - 1]) + units[|units| - 1]
  }

  function AllUnits(shares: seq<Share>, awarded: seq<Share>): seq<int> {
    seq(|shares|, i requires 0 <= i < |shares| => UnitsOf(shares[i], awarded))
  }

  /** The remainder at which the awards stop. */
  ghost predicate Threshold(shares: seq<Share>, awarded: seq<Share>, theta: int, sumW: nat) {
    && 0 <= theta <= sumW
    && forall s :: s in shares ==> if s in awarded then s.remainder >= theta else s.remainder <= theta
  }

  lemma ThresholdExists(shares: seq<Share>, awarded: seq<Share>, totalUnits: nat, sumW: nat) returns (theta: int)
    requires FairSplit(shares, awarded, totalUnits, sumW)
    requires Ordered(awarded)
    ensures Threshold(shares, awarded, theta, sumW)
  {
    hide SumFloors, SumRemainders;
    if awarded == [] {
      theta := sumW;
    } else {
      var last := awarded[|awarded| - 1];
      theta := last.remainder;
      assert last in awarded;
    }
  }

  /**
   * Lagrangian bound for one world: moving from the awarded units to any other integer costs at least
   * (sumW - 2 * theta) per unit moved.
   */
  lemma OneWorldBound(n: int, f: int, r: int, e: int, theta: int, d: int)
    requires 0 <= r < d && 0 <= theta <= d
    requires e == 0 ==> r <= theta
    requires e == 1 ==> r >= theta
    requires e == 0 || e == 1
    ensures Abs((n - f) * d - r) >= Abs(e * d - r) + (d - 2 * theta) * (n - f - e)
  {
    var m := n - f;
    if m <= 0 {
      Products(m, d, theta, e);
    } else {
      Products(m, d, theta, e);
    }
  }

  lemma Products(m: int, d: int, theta: int, e: int)
    requires 0 <= theta <= d
    ensures m <= 0 ==> m * d <= 0 && m * d <= m * theta <= 0
    ensures m >= 1 ==> m * d >= d && m * theta >= theta
    ensures (d - 2 * theta) * (m - e) == m * d - 2 * (m * theta) - e * d + 2 * (e * theta)
  {
  }

  lemma AwardedOrdered(entries: seq<Entry>, totalUnits: nat, shares: seq<Share>, awarded: seq<Share>)
    requires SplitOf(entries, totalUnits, shares, awarded)
    ensures Ordered(awarded)
  {
    AwardOrderOrdered(shares);
  }

  function Gap(k: int, n: int): int {
    k * n
  }

  lemma NoGap(k: int)
    ensures Gap(k, 0) == 0
  {
  }

  lemma {:induction false} SumOfWorldBounds(
      shares: seq<Share>, awarded: seq<Share>, units: seq<int>, totalUnits: nat, sumW: nat, theta: int)
    requires |units| == |shares|
    requires forall s :: s in shares ==>
      0 <= s.remainder < sumW && s.floorUnits * sumW + s.remainder == totalUnits * s.w
    requires Threshold(shares, awarded, theta, sumW)
    ensures Deviation(shares, units, totalUnits, sumW) >= Deviation(shares, AllUnits(shares, awarded), totalUnits, sumW)
      + Gap(sumW - 2 * theta, Sum(units) - SumUnits(shares, awarded))
  {
    if shares != [] {
      var m := |shares| - 1;
      var s, n, mu := shares[m], units[m], sumW - 2 * theta;
      assert s in shares;
      SumOfWorldBounds(shares[..m], awarded, units[..m], totalUnits, sumW, theta);
      assert AllUnits(shares, awarded)[..m] == AllUnits(shares[..m], awarded);
      WorldBound(s, awarded, n, totalUnits, sumW, theta);
      Distribute(mu, Sum(units[..m]) - SumUnits(shares[..m], awarded), n - UnitsOf(s, awarded));
    }
  }

  lemma WorldBound(s: Share, awarded: seq<Share>, n: int, totalUnits: nat, sumW: nat, theta: int)
    requires 0 <= s.remainder < sumW && s.floorUnits * sumW + s.remainder == totalUnits * s.w
    requires 0 <= theta <= sumW && (if s in awarded then s.remainder >= theta else s.remainder <= theta)
    ensures Abs(n * sumW - totalUnits * s.w)
      >= Abs(UnitsOf(s, awarded) * sumW - totalUnits * s.w) + (sumW - 2 * theta) * (n - UnitsOf(s, awarded))
  {
    var e := Bonus(s, awarded);
    OneWorldBound(n, s.floorUnits, s.remainder, e, theta, sumW);
    Distribute(sumW, n, -s.floorUnits);
    Distribute(sumW, s.floorUnits, e);
  }

  /** No integer allocation of the same total deviates less from the exact proportional shares. */
  lemma AllocationIsOptimal(entries: seq<Entry>, totalUnits: nat, shares: seq<Share>, awarded: seq<Share>,
          units: seq<int>)
    requires SplitOf(entries, totalUnits, shares, awarded)
    requires |units| == |shares| && Sum(units) == totalUnits
    ensures Deviation(shares, AllUnits(shares, awarded), totalUnits, SumW(entries))
      <= Deviation(shares, units, totalUnits, SumW(entries))
  {
    hide Deviation, AllUnits, Sum, SumUnits, Threshold, Ordered, SumW, Gap, SplitOf;
    var sumW := SumW(entries);
    SplitIsFair(entries, totalUnits, shares, awarded);
    AwardedOrdered(entries, totalUnits, shares, awarded);
    var theta := ThresholdExists(shares, awarded, totalUnits, sumW);
    UnitsAddUp(shares, awarded, totalUnits, sumW);
    SumOfWorldBounds(shares, awarded, units, totalUnits, sumW, theta);
    NoGap(sumW - 2 * theta);
  }

  // ----- From units back to the returned map -----

  /** The floor that the map keeps for an id: that of its last share. */
  function LastFloor(shares: seq<Share>, id: string): int {
    if shares == [] then 0
    else if shares[|shares| - 1].id == id then shares[|shares| - 1].floorUnits
    else LastFloor(shares[..|shares| - 1], id)
  }

  /** The residual units awarded to an id. */
  function Awards(awarded: seq<Share>, id: string): int {
    if awarded == [] then 0
    else Awards(awarded[..|awarded| - 1], id) + if awarded[|awarded| - 1].id == id then 1 else 0
  }

  function UnitsOfId(shares: seq<Share>, awarded: seq<Share>, id: string): int {
    LastFloor(shares, id) + Awards(awarded, id)
  }

  function IdSet(shares: seq<Share>): set<string> {
    set s | s in shares :: s.id
  }

  lemma {:induction false} FloorMapLookup(shares: seq<Share>, unit: real)
    ensures FloorMap(shares, unit).Keys == IdSet(shares)
    ensures forall id :: id in IdSet(shares) ==> FloorMap(shares, unit)[id] == Slice(LastFloor(shares, id), unit)
  {
    hide Slice;
    if shares != [] {
      var m := |shares| - 1;
      FloorMapLookup(shares[..m], unit);
      assert shares == shares[..m] + [shares[m]];
      assert IdSet(shares) == IdSet(shares[..m]) + {shares[m].id};
    }
  }

  /** Adding the awarded units on top of the floors. */
  lemma {:induction false} AwardMapLookup(slices: map<string, real>, awarded: seq<Share>, unit: real, id: string)
    requires id in slices && IdSet(awarded) <= slices.Keys
    ensures AwardMap(slices, awarded, unit).Keys == slices.Keys
    ensures AwardMap(slices, awarded, unit)[id] == slices[id] + Slice(Awards(awarded, id), unit)
  {
    if awarded == [] {
      NoSlice(unit);
    } else {
      var m := |awarded| - 1;
      assert awarded == awarded[..m] + [awarded[m]];
      assert awarded[m].id in IdSet(awarded) && IdSet(awarded[..m]) <= IdSet(awarded);
      AwardMapLookup(slices, awarded[..m], unit, id);
      SliceOneMore(Awards(awarded[..m], id), unit);
    }
    hide Slice;
  }

  lemma NoSlice(unit: real)
    ensures Slice(0, unit) == 0.0
  {
  }

  lemma SliceOneMore(units: int, unit: real)
    ensures Slice(units, unit) + unit == Slice(units + 1, unit)
  {
  }

  lemma SlicePlus(a: int, b: int, unit: real)
    ensures Slice(a, unit) + Slice(b, unit) == Slice(a + b, unit)
  {
  }

  /** The split behind one call. */
  function CallShares(total: real, worlds: seq<WorldWeight>, unit: real): seq<Share>
    requires Allocatable(total, worlds, unit)
  {
    PositiveTotal(worlds);
    Shares(PositiveWeights(worlds), TotalUnits(total, unit), SumW(PositiveWeights(worlds)))
  }

  function CallAwarded(total: real, worlds: seq<WorldWeight>, unit: real): seq<Share>
    requires Allocatable(total, worlds, unit)
  {
    PositiveTotal(worlds);
    Awarded(CallShares(total, worlds, unit), Residual(PositiveWeights(worlds), TotalUnits(total, unit)))
  }

  lemma CallSplit(total: real, worlds: seq<WorldWeight>, unit: real)
    requires Allocatable(total, worlds, unit)
    ensures SplitOf(PositiveWeights(worlds), TotalUnits(total, unit), CallShares(total, worlds, unit),
      CallAwarded(total, worlds, unit))
    ensures Allocation(total, worlds, unit)
      == AwardMap(FloorMap(CallShares(total, worlds, unit), unit), CallAwarded(total, worlds, unit), unit)
  {
    PositiveTotal(worlds);
    PositiveWeightsMeaning(worlds);
    hide TotalUnits, PositiveWeights, SumW, Residual, Shares, AwardOrder, EntryOf;
  }

  /** The returned map holds, for every positively weighted id, the floor of its last world plus its awards. */
  lemma AllocationMeaning(total: real, worlds: seq<WorldWeight>, unit: real)
    requires Allocatable(total, worlds, unit)
    ensures var shares, awarded := CallShares(total, worlds, unit), CallAwarded(total, worlds, unit);
      && Allocation(total, worlds, unit).Keys == IdSet(shares)
      && forall id :: id in IdSet(shares) ==>
           Allocation(total, worlds, unit)[id] == Slice(UnitsOfId(shares, awarded, id), unit)
  {
    var shares, awarded := CallShares(total, worlds, unit), CallAwarded(total, worlds, unit);
    CallSplit(total, worlds, unit);
    SplitIsFair(PositiveWeights(worlds), TotalUnits(total, unit), shares, awarded);
    MapMeaning(shares, awarded, unit);
    hide *;
  }

  lemma MapMeaning(shares: seq<Share>, awarded: seq<Share>, unit: real)
    requires shares != [] && forall s :: s in awarded ==> s in shares
    ensures var slices := AwardMap(FloorMap(shares, unit), awarded, unit);
      && slices.Keys == IdSet(shares)
      && forall id :: id in IdSet(shares) ==> slices[id] == Slice(UnitsOfId(shares, awarded, id), unit)
  {
    hide Slice, FloorMap, AwardMap, LastFloor, Awards;
    FloorMapLookup(shares, unit);
    forall id | id in IdSet(shares)
      ensures AwardMap(FloorMap(shares, unit), awarded, unit).Keys == IdSet(shares)
      ensures AwardMap(FloorMap(shares, unit), awarded, unit)[id] == Slice(UnitsOfId(shares, awarded, id), unit)
    {
      AwardMapLookup(FloorMap(shares, unit), awarded, unit, id);
      SlicePlus(LastFloor(shares, id), Awards(awarded, id), unit);
    }
    assert shares[0].id in IdSet(shares);
  }

  /** No other share has this one's id. */
  predicate OwnId(shares: seq<Share>, s: Share) {
    forall t :: t in shares && t.id == s.id ==> t == s
  }

  lemma {:induction false} OwnFloor(shares: seq<Share>, s: Share)
    requires s in shares && OwnId(shares, s)
    ensures LastFloor(shares, s.id) == s.floorUnits
  {
    var m := |shares| - 1;
    assert shares[m] in shares;
    if shares[m].id != s.id {
      assert shares == shares[..m] + [shares[m]];
      OwnFloor(shares[..m], s);
    }
  }

  lemma {:induction false} OwnAwards(awarded: seq<Share>, s: Share)
    requires NoRepeats(awarded) && OwnId(awarded, s)
    ensures Awards(awarded, s.id) == Bonus(s, awarded)
  {
    if awarded != [] {
      var m := |awarded| - 1;
      assert awarded == awarded[..m] + [awarded[m]];
      assert forall t :: t in awarded[..m] ==> t in awarded;
      OwnAwards(awarded[..m], s);
      assert awarded[m] in awarded;
      assert awarded[m] !in awarded[..m];
    }
  }

  /** A world that does not share its id gets exactly the units of its share. */
  lemma OwnUnits(shares: seq<Share>, awarded: seq<Share>, s: Share)
    requires s in shares && OwnId(shares, s) && NoRepeats(awarded) && forall t :: t in awarded ==> t in shares
    ensures UnitsOfId(shares, awarded, s.id) == UnitsOf(s, awarded)
  {
    OwnFloor(shares, s);
    OwnAwards(awarded, s);
  }

  // ----- The values of the map -----

  /** The keys of the map in the order of their insertion. */
  function KeyOrder(shares: seq<Share>): seq<string> {
    if shares == [] then []
    else
      var front := KeyOrder(shares[..|shares| - 1]);
      var id := shares[|shares| - 1].id;
      if id in front then front else front + [id]
  }

  function SumBy(ids: seq<string>, f: string -> int): int {
    if ids == [] then 0 else SumBy(ids[..|ids| - 1], f) + f(ids[|ids| - 1])
  }

  /** The values of the listed keys, added up. */
  function SumSlices(slices: map<string, real>, ids: seq<string>): real
    requires forall id :: id in ids ==> id in slices
  {
    if ids == [] then 0.0 else SumSlices(slices, ids[..|ids| - 1]) + slices[ids[|ids| - 1]]
  }

  /** The floors that a later share of the same id overwrites. */
  function Overwritten(shares: seq<Share>): int {
    if shares == [] then 0
    else Overwritten(shares[..|shares| - 1]) + LastFloor(shares[..|shares| - 1], shares[|shares| - 1].id)
  }

  lemma {:induction false} KeyOrderMeaning(shares: seq<Share>)
    ensures NoRepeats(KeyOrder(shares)) && forall id :: id in KeyOrder(shares) <==> id in IdSet(shares)
  {
    if shares != [] {
      var m := |shares| - 1;
      KeyOrderMeaning(shares[..m]);
      assert shares == shares[..m] + [shares[m]];
      assert IdSet(shares) == IdSet(shares[..m]) + {shares[m].id};
    }
  }

  /** Changing one summand of a repeat-free sum. */
  lemma {:induction false} SumByChange(ids: seq<string>, f: string -> int, g: string -> int, id: string)
    requires NoRepeats(ids) && forall k :: k != id ==> f(k) == g(k)
    ensures SumBy(ids, g) == SumBy(ids, f) + if id in ids then g(id) - f(id) else 0
  {
    if ids != [] {
      var m := |ids| - 1;
      assert ids == ids[..m] + [ids[m]];
      SumByChange(ids[..m], f, g, id);
    }
  }

  lemma {:induction false} SumByPlus(ids: seq<string>, f: string -> int, g: string -> int, h: string -> int)
    requires forall k :: h(k) == f(k) + g(k)
    ensures SumBy(ids, h) == SumBy(ids, f) + SumBy(ids, g)
  {
    if ids != [] {
      SumByPlus(ids[..|ids| - 1], f, g, h);
    }
  }

  lemma {:induction false} SumByZero(ids: seq<string>, f: string -> int)
    requires forall k :: f(k) == 0
    ensures SumBy(ids, f) == 0
  {
    if ids != [] {
      SumByZero(ids[..|ids| - 1], f);
    }
  }

  lemma {:induction false} UnknownFloor(shares: seq<Share>, id: string)
    requires id !in IdSet(shares)
    ensures LastFloor(shares, id) == 0
  {
    if shares != [] {
      var m := |shares| - 1;
      assert shares[m].id in IdSet(shares) && IdSet(shares[..m]) <= IdSet(shares);
      UnknownFloor(shares[..m], id);
    }
  }

  /** The floors in the map are all the floors but the overwritten ones. */
  lemma {:induction false} KeptFloors(shares: seq<Share>)
    ensures SumBy(KeyOrder(shares), id => LastFloor(shares, id)) == SumFloors(shares) - Overwritten(shares)
  {
    if shares != [] {
      var m := |shares| - 1;
      var front, last := shares[..m], shares[m];
      KeptFloors(front);
      KeyOrderMeaning(front);
      var before, after := (id: string) => LastFloor(front, id), (id: string) => LastFloor(shares, id);
      SumByChange(KeyOrder(front), before, after, last.id);
      if last.id !in KeyOrder(front) {
        UnknownFloor(front, last.id);
        assert KeyOrder(shares)[..|KeyOrder(front)|] == KeyOrder(front);
      }
    }
  }

  /** All awards reach some key. */
  lemma {:induction false} AllAwards(ids: seq<string>, awarded: seq<Share>)
    requires NoRepeats(ids) && forall s :: s in awarded ==> s.id in ids
    ensures SumBy(ids, id => Awards(awarded, id)) == |awarded|
  {
    if awarded == [] {
      SumByZero(ids, id => Awards(awarded, id));
    } else {
      var m := |awarded| - 1;
      var front := awarded[..m];
      assert awarded == front + [awarded[m]];
      AllAwards(ids, front);
      SumByChange(ids, id => Awards(front, id), id => Awards(awarded, id), awarded[m].id);
    }
  }

  lemma {:induction false} SumOfSlices(slices: map<string, real>, ids: seq<string>, units: string -> int, unit: real)
    requires forall id :: id in ids ==> id in slices && slices[id] == Slice(units(id), unit)
    ensures SumSlices(slices, ids) == Slice(SumBy(ids, units), unit)
  {
    hide Slice;
    if ids == [] {
      NoSlice(unit);
    } else {
      var m := |ids| - 1;
      assert ids[m] in ids;
      SumOfSlices(slices, ids[..m], units, unit);
      SlicePlus(SumBy(ids[..m], units), units(ids[m]), unit);
    }
  }

  lemma SumOfUnits(shares: seq<Share>, awarded: seq<Share>)
    requires forall s :: s in awarded ==> s in shares
    ensures SumBy(KeyOrder(shares), id => UnitsOfId(shares, awarded, id))
      == SumFloors(shares) - Overwritten(shares) + |awarded|
  {
    hide LastFloor, Awards, KeyOrder, SumFloors, Overwritten;
    KeptFloors(shares);
    KeyOrderMeaning(shares);
    assert forall s :: s in awarded ==> s.id in IdSet(shares);
    AllAwards(KeyOrder(shares), awarded);
    SumByPlus(KeyOrder(shares), id => LastFloor(shares, id), id => Awards(awarded, id),
      id => UnitsOfId(shares, awarded, id));
  }

  /** Only floors of zero are overwritten. */
  predicate OverwritesNothing(shares: seq<Share>) {
    forall i, j :: 0 <= i < j < |shares| && shares[i].id == shares[j].id ==> shares[i].floorUnits == 0
  }

  /** Every share of an id has a floor of zero. */
  predicate NoFloor(shares: seq<Share>, id: string) {
    forall i :: 0 <= i < |shares| && shares[i].id == id ==> shares[i].floorUnits == 0
  }

  lemma OverwritesOneMore(shares: seq<Share>)
    requires shares != []
    ensures var front := shares[..|shares| - 1];
      OverwritesNothing(shares) <==> OverwritesNothing(front) && NoFloor(front, shares[|shares| - 1].id)
  {
    var m := |shares| - 1;
    var front := shares[..m];
    assert forall i :: 0 <= i < m ==> front[i] == shares[i];
  }

  lemma {:induction false} LastFloorMeaning(shares: seq<Share>, id: string)
    requires forall s :: s in shares ==> s.floorUnits >= 0
    ensures LastFloor(shares, id) >= 0
    ensures OverwritesNothing(shares) ==> (LastFloor(shares, id) == 0 <==> NoFloor(shares, id))
  {
    if shares != [] {
      var m := |shares| - 1;
      var front := shares[..m];
      assert shares[m] in shares && forall i :: 0 <= i < m ==> front[i] == shares[i] && front[i] in shares;
      LastFloorMeaning(front, id);
      OverwritesOneMore(shares);
      assert NoFloor(shares, id) <==> NoFloor(front, id) && (shares[m].id == id ==> shares[m].floorUnits == 0);
      hide OverwritesNothing;
    }
  }

  lemma {:induction false} OverwrittenMeaning(shares: seq<Share>)
    requires forall s :: s in shares ==> s.floorUnits >= 0
    ensures Overwritten(shares) >= 0 && (Overwritten(shares) == 0 <==> OverwritesNothing(shares))
  {
    if shares != [] {
      var m := |shares| - 1;
      var front := shares[..m];
      assert forall s :: s in front ==> s in shares;
      OverwrittenMeaning(front);
      LastFloorMeaning(front, shares[m].id);
      OverwritesOneMore(shares);
      hide OverwritesNothing, NoFloor, LastFloor;
    }
  }

  /** The values of the map are worth all units but the overwritten ones. */
  lemma SumOfAllocation(total: real, worlds: seq<WorldWeight>, unit: real)
    requires Allocatable(total, worlds, unit)
    ensures var shares, slices := CallShares(total, worlds, unit), Allocation(total, worlds, unit);
      && (forall id :: id in KeyOrder(shares) <==> id in slices)
      && SumSlices(slices, KeyOrder(shares)) == Slice(TotalUnits(total, unit) - Overwritten(shares), unit)
      && (forall s :: s in shares ==> s.floorUnits >= 0)
  {
    hide *;
    AllocationMeaning(total, worlds, unit);
    CallFloors(total, worlds, unit);
    SumOfMap(Allocation(total, worlds, unit), CallShares(total, worlds, unit), CallAwarded(total, worlds, unit), unit);
  }

  lemma CallFloors(total: real, worlds: seq<WorldWeight>, unit: real)
    requires Allocatable(total, worlds, unit)
    ensures var shares, awarded := CallShares(total, worlds, unit), CallAwarded(total, worlds, unit);
      && (forall s :: s in awarded ==> s in shares)
      && (forall s :: s in shares ==> s.floorUnits >= 0)
      && SumFloors(shares) + |awarded| == TotalUnits(total, unit)
  {
    var shares, awarded := CallShares(total, worlds, unit), CallAwarded(total, worlds, unit);
    CallSplit(total, worlds, unit);
    SplitIsFair(PositiveWeights(worlds), TotalUnits(total, unit), shares, awarded);
    FairFloors(shares, awarded, TotalUnits(total, unit), SumW(PositiveWeights(worlds)));
    hide *;
  }

  lemma SumOfMap(slices: map<string, real>, shares: seq<Share>, awarded: seq<Share>, unit: real)
    requires slices.Keys == IdSet(shares) && forall s :: s in awarded ==> s in shares
    requires forall id :: id in IdSet(shares) ==> slices[id] == Slice(UnitsOfId(shares, awarded, id), unit)
    ensures forall id :: id in KeyOrder(shares) <==> id in slices
    ensures SumSlices(slices, KeyOrder(shares)) == Slice(SumFloors(shares) - Overwritten(shares) + |awarded|, unit)
  {
    hide Slice, UnitsOfId, KeyOrder, IdSet, SumFloors, Overwritten, SumSlices, SumBy;
    KeyOrderMeaning(shares);
    SumOfUnits(shares, awarded);
    SumOfSlices(slices, KeyOrder(shares), id => UnitsOfId(shares, awarded, id), unit);
  }

  /**
   * The values of the map add up to the rounded total exactly when no floor but zero is overwritten by a later world
   * of the same id, and to the total itself exactly when, besides, it is a whole number of units.
   */
  lemma SlicesAddUp(total: real, worlds: seq<WorldWeight>, unit: real)
    requires Allocatable(total, worlds, unit)
    ensures var shares, slices := CallShares(total, worlds, unit), Allocation(total, worlds, unit);
      && (forall id :: id in KeyOrder(shares) <==> id in slices)
      && (SumSlices(slices, KeyOrder(shares)) == Slice(TotalUnits(total, unit), unit) <==> OverwritesNothing(shares))
      && (SumSlices(slices, KeyOrder(shares)) == total
          <==> OverwritesNothing(shares) && (total / unit).Floor as real == total / unit)
  {
    hide CallShares, Allocation, KeyOrder, SumSlices, Slice, TotalUnits, Overwritten, OverwritesNothing;
    var shares := CallShares(total, worlds, unit);
    SumOfAllocation(total, worlds, unit);
    OverwrittenMeaning(shares);
    FewerUnits(total, Overwritten(shares), unit);
    hide *;
  }

  lemma FairFloors(shares: seq<Share>, awarded: seq<Share>, totalUnits: nat, sumW: nat)
    requires FairSplit(shares, awarded, totalUnits, sumW)
    ensures forall s :: s in awarded ==> s in shares
    ensures forall s :: s in shares ==> s.floorUnits >= 0
    ensures SumFloors(shares) + |awarded| == totalUnits
  {
    forall s | s in shares
      ensures s.floorUnits >= 0
    {
      NonNegativeQuotient(s.floorUnits, s.remainder, totalUnits, s.w, sumW);
    }
  }

  lemma NonNegativeQuotient(q: int, r: int, t: nat, w: nat, d: nat)
    requires q * d + r == t * w && r < d
    ensures q >= 0
  {
    if q < 0 {
      AtLeastOnce(-q, d);
    }
  }

  /** Taking units away changes the sum, and leaves the total only if none is taken and the total is whole. */
  lemma FewerUnits(total: real, lost: int, unit: real)
    requires unit > 0.0
    ensures Slice(TotalUnits(total, unit) - lost, unit) == Slice(TotalUnits(total, unit), unit) <==> lost == 0
    ensures Slice(TotalUnits(total, unit) - lost, unit) == total <==>
      lost == 0 && (total / unit).Floor as real == total / unit
  {
    hide Slice, TotalUnits;
    var n := TotalUnits(total, unit);
    if (total / unit).Floor as real == total / unit {
      WholeTotalUnits(total, unit);
    }
    SameSlice(n - lost, n, unit);
    WholeSlice(n - lost, total, unit);
  }

  lemma WholeTotalUnits(total: real, unit: real)
    requires unit > 0.0 && (total / unit).Floor as real == total / unit
    ensures Slice(TotalUnits(total, unit), unit) == total
  {
    RoundWhole(total / unit);
    assert total / unit * unit == total;
  }

  lemma RoundWhole(x: real)
    requires x.Floor as real == x
    ensures Round(x) as real == x
  {
    var n := x.Floor;
    assert n as real <= n as real + 0.5 < (n + 1) as real;
    assert (n as real + 0.5).Floor == n;
  }

  lemma SameSlice(a: int, b: int, unit: real)
    requires unit > 0.0
    ensures Slice(a, unit) == Slice(b, unit) <==> a == b
  {
    CancelFactorReal(a as real, b as real, unit);
  }

  /** A number of units is worth the total exactly when the total is that many units, and then it rounds to it. */
  lemma WholeSlice(n: int, total: real, unit: real)
    requires unit > 0.0
    ensures Slice(n, unit) == total <==> n as real == total / unit
    ensures Slice(n, unit) == total ==> n == TotalUnits(total, unit) && (total / unit).Floor as real == total / unit
  {
    assert total / unit * unit == total;
    CancelFactorReal(n as real, total / unit, unit);
  }

  /** The positively weighted worlds have ids of their own. */
  predicate DistinctIds(entries: seq<Entry>) {
    forall i, j :: 0 <= i < j < |entries| ==> entries[i].id != entries[j].id
  }

  predicate SumsToRoundedTotal(total: real, worlds: seq<WorldWeight>, unit: real) {
    Allocatable(total, worlds, unit) ==>
      var slices, ids := Allocation(total, worlds, unit), KeyOrder(CallShares(total, worlds, unit));
      (forall id :: id in ids ==> id in slices) && SumSlices(slices, ids) == Slice(TotalUnits(total, unit), unit)
  }

  /** The slices add up for every total exactly when no two positively weighted worlds have the same id. */
  lemma SlicesAddUpForEveryTotal(worlds: seq<WorldWeight>, unit: real)
    requires unit > 0.0 && PositiveWeights(worlds) != []
    ensures (forall total: real :: SumsToRoundedTotal(total, worlds, unit)) <==> DistinctIds(PositiveWeights(worlds))
  {
    hide SumsToRoundedTotal;
    var entries := PositiveWeights(worlds);
    if DistinctIds(entries) {
      forall total: real
        ensures SumsToRoundedTotal(total, worlds, unit)
      {
        DistinctIdsAddUp(total, worlds, unit);
      }
    } else {
      var i, j :| 0 <= i < j < |entries| && entries[i].id == entries[j].id;
      var total := SharedIdLoses(worlds, unit, i, j);
      assert !SumsToRoundedTotal(total, worlds, unit);
    }
  }

  lemma DistinctIdsAddUp(total: real, worlds: seq<WorldWeight>, unit: real)
    requires DistinctIds(PositiveWeights(worlds))
    ensures SumsToRoundedTotal(total, worlds, unit)
  {
    hide Allocation, KeyOrder, SumSlices, Slice, Shares, OverwritesNothing, DistinctIds;
    if Allocatable(total, worlds, unit) {
      SlicesAddUp(total, worlds, unit);
      PositiveTotal(worlds);
      DistinctShares(PositiveWeights(worlds), TotalUnits(total, unit), SumW(PositiveWeights(worlds)));
    }
  }

  /** With a shared id, a total of as many units as the total weight overwrites a positive floor. */
  lemma SharedIdLoses(worlds: seq<WorldWeight>, unit: real, i: nat, j: nat) returns (total: real)
    requires unit > 0.0 && i < j < |PositiveWeights(worlds)|
    requires PositiveWeights(worlds)[i].id == PositiveWeights(worlds)[j].id
    ensures !SumsToRoundedTotal(total, worlds, unit)
  {
    hide Allocation, KeyOrder, SumSlices, Slice, ShareOf, PositiveWeights, SumW, TotalUnits;
    var entries := PositiveWeights(worlds);
    PositiveTotal(worlds);
    PositiveWeightsMeaning(worlds);
    total := SumW(entries) as real * unit;
    WholeTotal(SumW(entries), unit);
    SlicesAddUp(total, worlds, unit);
    var shares := CallShares(total, worlds, unit);
    assert EntryOf(entries[i], worlds);
    ExactFloor(entries[i], SumW(entries));
    assert shares[i] == ShareOf(entries[i], SumW(entries), SumW(entries));
    assert shares[j] == ShareOf(entries[j], SumW(entries), SumW(entries));
    hide EntryOf, ScaledWeight;
  }

  lemma DistinctShares(entries: seq<Entry>, totalUnits: nat, sumW: nat)
    requires DistinctIds(entries) && sumW > 0
    ensures OverwritesNothing(Shares(entries, totalUnits, sumW))
  {
    hide ShareOf;
  }

  /** A total of sumW units splits without remainder. */
  lemma ExactFloor(e: Entry, sumW: nat)
    requires sumW > 0 && e.w > 0
    ensures ShareOf(e, sumW, sumW).floorUnits == e.w
  {
    QuotientUnique(sumW * e.w, sumW, e.w, 0);
  }

  lemma WholeTotal(n: nat, unit: real)
    requires n > 0 && unit > 0.0
    ensures n as real * unit > 0.0 && TotalUnits(n as real * unit, unit) == n
  {
    assert n as real * unit / unit == n as real;
  }

  /**
   * Every slice of an id of its own is a whole number of units, strictly within one unit of the exact share,
   * and a larger scaled weight never gets a smaller slice.
   */
  lemma SlicesAreFair(total: real, worlds: seq<WorldWeight>, unit: real, s: Share, t: Share)
    requires Allocatable(total, worlds, unit)
    requires s in CallShares(total, worlds, unit) && t in CallShares(total, worlds, unit)
    requires OwnId(CallShares(total, worlds, unit), s) && OwnId(CallShares(total, worlds, unit), t)
    ensures var slices, units := Allocation(total, worlds, unit), UnitsOf(s, CallAwarded(total, worlds, unit));
      && s.id in slices && t.id in slices && slices[s.id] == Slice(units, unit)
      && Abs(units * SumW(PositiveWeights(worlds)) - TotalUnits(total, unit) * s.w) < SumW(PositiveWeights(worlds))
      && (s.w > t.w ==> slices[s.id] >= slices[t.id])
  {
    var shares, awarded := CallShares(total, worlds, unit), CallAwarded(total, worlds, unit);
    var totalUnits, sumW := TotalUnits(total, unit), SumW(PositiveWeights(worlds));
    AllocationMeaning(total, worlds, unit);
    hide Allocation, CallShares, CallAwarded, PositiveWeights, SumW, TotalUnits, Slice, UnitsOfId, FairSplit, SplitOf;
    assert s.id in IdSet(shares) && t.id in IdSet(shares);
    CallFloors(total, worlds, unit);
    CallSplit(total, worlds, unit);
    SplitIsFair(PositiveWeights(worlds), totalUnits, shares, awarded);
    AwardedDistinct(shares, awarded, totalUnits, sumW);
    OwnUnits(shares, awarded, s);
    OwnUnits(shares, awarded, t);
    WithinOneUnit(shares, awarded, totalUnits, sumW, s);
    if s.w > t.w {
      WeightMonotone(shares, awarded, totalUnits, sumW, s, t);
      SliceMonotone(UnitsOf(t, awarded), UnitsOf(s, awarded), unit);
    }
    hide *;
  }

  lemma AwardedDistinct(shares: seq<Share>, awarded: seq<Share>, totalUnits: nat, sumW: nat)
    requires FairSplit(shares, awarded, totalUnits, sumW)
    ensures NoRepeats(awarded)
  {
  }

  lemma SliceMonotone(a: int, b: int, unit: real)
    requires a <= b && unit > 0.0
    ensures Slice(a, unit) <= Slice(b, unit)
  {
  }

  // ----- The returned slices are the fairest -----

  /** How far a slice is from the share of a weight in a total, times the total weight. */
  function Distance(slice: real, sumW: nat, total: real, w: nat): real {
    Magnitude(slice * sumW as real - total * w as real)
  }

  /** How far slices are from the exact shares of a total, times the total weight. */
  function Unfairness(shares: seq<Share>, slices: map<string, real>, total: real, sumW: nat): real
    requires forall s :: s in shares ==> s.id in slices
  {
    if shares == [] then 0.0
    else
      var last := shares[|shares| - 1];
      Unfairness(shares[..|shares| - 1], slices, total, sumW)
      + Distance(slices[last.id], sumW, total, last.w)
  }

  predicate InUnits(shares: seq<Share>, slices: map<string, real>, units: seq<int>, unit: real) {
    && |units| == |shares|
    && forall i :: 0 <= i < |shares| ==> shares[i].id in slices && slices[shares[i].id] == Slice(units[i], unit)
  }

  predicate DistinctShareIds(shares: seq<Share>) {
    forall i, j :: 0 <= i < j < |shares| ==> shares[i].id != shares[j].id
  }

  /** Every slice is a whole number of units. */
  predicate WholeUnits(slices: map<string, real>, unit: real)
    requires unit > 0.0
  {
    forall id :: id in slices ==> Slice((slices[id] / unit).Floor, unit) == slices[id]
  }

  lemma DeviationOfSlice(n: int, sumW: nat, totalUnits: nat, w: nat, unit: real)
    requires unit > 0.0
    ensures Distance(Slice(n, unit), sumW, Slice(totalUnits, unit), w)
      == Abs(n * sumW - totalUnits * w) as real * unit
  {
    var d := n * sumW - totalUnits * w;
    var x, y := n as real * sumW as real, totalUnits as real * w as real;
    assert n as real * unit * sumW as real == x * unit;
    assert totalUnits as real * unit * w as real == y * unit;
    assert (n * sumW) as real == x && (totalUnits * w) as real == y;
    assert d as real == x - y;
    assert x * unit - y * unit == (x - y) * unit;
    SignOfProduct(d as real, unit);
  }

  lemma SignOfProduct(x: real, unit: real)
    requires unit > 0.0
    ensures Magnitude(x * unit) == Magnitude(x) * unit
  {
  }

  lemma SumTimesUnit(a: nat, b: nat, unit: real)
    ensures (a + b) as real * unit == a as real * unit + b as real * unit
  {
  }

  lemma {:induction false} UnfairnessInUnits(
      shares: seq<Share>, slices: map<string, real>, units: seq<int>, unit: real, totalUnits: nat, sumW: nat)
    requires unit > 0.0 && InUnits(shares, slices, units, unit)
    ensures forall s :: s in shares ==> s.id in slices
    ensures Unfairness(shares, slices, Slice(totalUnits, unit), sumW)
      == Deviation(shares, units, totalUnits, sumW) as real * unit
  {
    hide Slice, Distance, Abs;
    forall s | s in shares
      ensures s.id in slices
    {
      var i :| 0 <= i < |shares| && shares[i] == s;
    }
    if shares == [] {
      assert Deviation(shares, units, totalUnits, sumW) == 0;
    } else {
      var m := |shares| - 1;
      UnfairnessInUnits(shares[..m], slices, units[..m], unit, totalUnits, sumW);
      DeviationOfSlice(units[m], sumW, totalUnits, shares[m].w, unit);
      var front := Deviation(shares[..m], units[..m], totalUnits, sumW);
      var last := Abs(units[m] * sumW - totalUnits * shares[m].w);
      assert Deviation(shares, units, totalUnits, sumW) == front + last;
      SumTimesUnit(front, last, unit);
    }
  }

  lemma {:induction false} SumInUnits(shares: seq<Share>, slices: map<string, real>, units: seq<int>, unit: real)
    requires InUnits(shares, slices, units, unit) && DistinctShareIds(shares)
    ensures forall id :: id in KeyOrder(shares) ==> id in slices
    ensures SumSlices(slices, KeyOrder(shares)) == Slice(Sum(units), unit)
  {
    hide Slice;
    if shares == [] {
      NoSlice(unit);
    } else {
      var m := |shares| - 1;
      SumInUnits(shares[..m], slices, units[..m], unit);
      KeyOrderMeaning(shares[..m]);
      assert shares[m].id !in IdSet(shares[..m]);
      assert KeyOrder(shares) == KeyOrder(shares[..m]) + [shares[m].id];
      SlicePlus(Sum(units[..m]), units[m], unit);
    }
  }

  /** The units of a map of whole slices. */
  function UnitsIn(shares: seq<Share>, slices: map<string, real>, unit: real): (units: seq<int>)
    requires unit > 0.0 && WholeUnits(slices, unit) && forall s :: s in shares ==> s.id in slices
    ensures InUnits(shares, slices, units, unit)
  {
    seq(|shares|, i requires 0 <= i < |shares| => (slices[shares[i].id] / unit).Floor)
  }

  lemma OwnShares(total: real, worlds: seq<WorldWeight>, unit: real)
    requires Allocatable(total, worlds, unit) && DistinctIds(PositiveWeights(worlds))
    ensures DistinctShareIds(CallShares(total, worlds, unit))
  {
    hide ShareOf, PositiveWeights, SumW, TotalUnits;
    PositiveTotal(worlds);
  }

  /** When ids are distinct, every slice is that of its world's units. */
  lemma SlicesOfUnits(slices: map<string, real>, shares: seq<Share>, awarded: seq<Share>, unit: real)
    requires DistinctShareIds(shares) && NoRepeats(awarded) && forall s :: s in awarded ==> s in shares
    requires slices.Keys == IdSet(shares)
    requires forall id :: id in IdSet(shares) ==> slices[id] == Slice(UnitsOfId(shares, awarded, id), unit)
    ensures InUnits(shares, slices, AllUnits(shares, awarded), unit)
  {
    hide Slice, UnitsOfId, UnitsOf, NoRepeats;
    forall i | 0 <= i < |shares|
      ensures shares[i].id in IdSet(shares) && UnitsOfId(shares, awarded, shares[i].id) == UnitsOf(shares[i], awarded)
    {
      assert shares[i] in shares;
      OwnUnits(shares, awarded, shares[i]);
    }
  }

  lemma OwnSlices(total: real, worlds: seq<WorldWeight>, unit: real)
    requires Allocatable(total, worlds, unit) && DistinctIds(PositiveWeights(worlds))
    ensures var shares := CallShares(total, worlds, unit);
      && DistinctShareIds(shares)
      && InUnits(shares, Allocation(total, worlds, unit), AllUnits(shares, CallAwarded(total, worlds, unit)), unit)
  {
    hide Allocation, CallShares, CallAwarded, PositiveWeights, SumW, TotalUnits, Slice, FairSplit, SplitOf, UnitsOfId,
      InUnits, AllUnits, IdSet, DistinctIds, DistinctShareIds, NoRepeats;
    var shares, awarded := CallShares(total, worlds, unit), CallAwarded(total, worlds, unit);
    OwnShares(total, worlds, unit);
    CallSplit(total, worlds, unit);
    SplitIsFair(PositiveWeights(worlds), TotalUnits(total, unit), shares, awarded);
    AwardedDistinct(shares, awarded, TotalUnits(total, unit), SumW(PositiveWeights(worlds)));
    CallFloors(total, worlds, unit);
    AllocationMeaning(total, worlds, unit);
    SlicesOfUnits(Allocation(total, worlds, unit), shares, awarded, unit);
  }

  /** For ids of their own, no map of whole units with the same sum is nearer to the exact shares than the returned. */
  lemma SlicesAreOptimal(total: real, worlds: seq<WorldWeight>, unit: real, other: map<string, real>)
    requires Allocatable(total, worlds, unit) && DistinctIds(PositiveWeights(worlds)) && WholeUnits(other, unit)
    requires var ids := KeyOrder(CallShares(total, worlds, unit));
      (forall id :: id in ids ==> id in other) && SumSlices(other, ids) == Slice(TotalUnits(total, unit), unit)
    ensures var shares, sumW := CallShares(total, worlds, unit), SumW(PositiveWeights(worlds));
      var rounded := Slice(TotalUnits(total, unit), unit);
      && (forall s :: s in shares ==> s.id in Allocation(total, worlds, unit) && s.id in other)
      && Unfairness(shares, Allocation(total, worlds, unit), rounded, sumW) <= Unfairness(shares, other, rounded, sumW)
  {
    hide Allocation, CallShares, CallAwarded, PositiveWeights, SumW, TotalUnits, Slice, SplitOf, WholeUnits, Unfairness,
      Deviation, AllUnits, Sum, SumSlices, KeyOrder, DistinctIds, DistinctShareIds;
    var shares, awarded := CallShares(total, worlds, unit), CallAwarded(total, worlds, unit);
    var totalUnits, sumW := TotalUnits(total, unit), SumW(PositiveWeights(worlds));
    KeyOrderMeaning(shares);
    assert forall s :: s in shares ==> s.id in IdSet(shares);
    var units := UnitsIn(shares, other, unit);
    OwnSlices(total, worlds, unit);
    SumInUnits(shares, other, units, unit);
    SameSlice(Sum(units), totalUnits, unit);
    CallSplit(total, worlds, unit);
    AllocationIsOptimal(PositiveWeights(worlds), totalUnits, shares, awarded, units);
    UnfairnessInUnits(shares, Allocation(total, worlds, unit), AllUnits(shares, awarded), unit, totalUnits, sumW);
    UnfairnessInUnits(shares, other, units, unit, totalUnits, sumW);
    ScaledOrder(Deviation(shares, AllUnits(shares, awarded), totalUnits, sumW),
                Deviation(shares, units, totalUnits, sumW), unit);
  }

  lemma ScaledOrder(a: nat, b: nat, unit: real)
    requires a <= b && unit > 0.0
    ensures a as real * unit <= b as real * unit
  {
  }

  /** Ten and a half units of capital for one world: it is given eleven. */
  lemma FractionalTotal(id: string)
    ensures Allocation(10.5, [WorldWeight(id, 1.0)], 1.0) == map[id := 11.0]
  {
    var worlds := [WorldWeight(id, 1.0)];
    var entry := Entry(id, 1_000_000, 0);
    assert worlds[..0] == [];
    assert ScaledWeight(worlds[0]) == 1_000_000;
    assert PositiveWeights(worlds) == [entry];
    assert [entry][..0] == [];
    assert SumW([entry]) == 1_000_000;
    assert TotalUnits(10.5, 1.0) == 11;
    var share := Share(id, 1_000_000, 0, 11, 0);
    assert ShareOf(entry, 11, 1_000_000) == share;
    assert Shares([entry], 11, 1_000_000) == [share];
    assert [share][..0] == [];
    assert SumFloors([share]) == 11;
    assert Residual([entry], 11) == 0;
    assert Awarded([share], 0) == [];
    assert FloorMap([share], 1.0) == map[id := 11.0];
  }
}
