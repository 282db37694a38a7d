/** Positions, their lots and what a fill does to them (src/strategy/strategy-engine.ts). */
module Positions {
  import opened Arithmetic
  import opened Prelude
  import opened Orders

  type Side = d: Direction | d != Flat witness Long

  datatype Lot = Lot(entryName: string, quantity: real, avgPrice: real)

  datatype Position = Position(direction: Direction, quantity: real, avgPrice: real, entryName: string,
                               unrealizedPnl: real, lots: seq<Lot>)

  const NoPosition := Position(Flat, 0.0, 0.0, "", 0.0, [])

  datatype Trade = Trade(direction: Direction, entryPrice: real, exitPrice: real, quantity: real,
                         pnl: real, commission: real, exitName: string)

  function Times(a: real, b: real): real {
    a * b
  }

  /** Profit of closing a quantity bought, or sold short, at avgPrice. */
  function Profit(direction: Direction, avgPrice: real, price: real, quantity: real): real {
    if direction == Long then Times(price - avgPrice, quantity) else Times(avgPrice - price, quantity)
  }

  /** The price of a position after adding to it; a total of zero has no average. */
  function Average(avgPrice: real, held: real, price: real, quantity: real): real {
    if held + quantity == 0.0 then 0.0 else (avgPrice * held + price * quantity) / (held + quantity)
  }

  function OpenOrAdd(p: Position, side: Side, quantity: real, price: real, entryName: string): Position {
    if p.direction == Flat then Position(side, quantity, price, entryName, 0.0, [Lot(entryName, quantity, price)])
    else
      p.(avgPrice := Average(p.avgPrice, p.quantity, price, quantity), quantity := p.quantity + quantity,
         lots := p.lots + [Lot(entryName, quantity, price)])
  }

  // ----- Lots -----

  function SumLots(lots: seq<Lot>): real {
    if lots == [] then 0.0 else SumLots(lots[..|lots| - 1]) + lots[|lots| - 1].quantity
  }

  predicate AllPositive(lots: seq<Lot>) {
    forall i :: 0 <= i < |lots| ==> lots[i].quantity > 0.0
  }

  /** Take a quantity from the oldest lots first. */
  function PopLots(lots: seq<Lot>, remaining: real): seq<Lot> {
    if remaining <= 0.0 || lots == [] then lots
    else if lots[0].quantity <= remaining then PopLots(lots[1..], remaining - lots[0].quantity)
    else [lots[0].(quantity := lots[0].quantity - remaining)] + lots[1..]
  }

  function FirstLot(lots: seq<Lot>, name: string): (i: Option<nat>)
    ensures i.Some? ==> i.value < |lots| && lots[i.value].entryName == name
  {
    if lots == [] then None
    else if lots[0].entryName == name then Some(0)
    else
      var rest := FirstLot(lots[1..], name);
      if rest.Some? then Some(rest.value + 1) else None
  }

  /** Take a quantity from the lot named, and what that lot does not cover from the oldest first. */
  function ReduceLots(lots: seq<Lot>, quantity: real, fromEntry: string): seq<Lot> {
    var i := if fromEntry != "" then FirstLot(lots, fromEntry) else None;
    if i.None? then PopLots(lots, quantity)
    else
      var lot := lots[i.value];
      if lot.quantity <= quantity then PopLots(lots[..i.value] + lots[i.value + 1..], quantity - lot.quantity)
      else PopLots(lots[i.value := lot.(quantity := lot.quantity - quantity)], 0.0)
  }

  /** The lots of a position account for it: all positive, summing to its quantity, and none exactly when it is flat. */
  predicate Accounted(p: Position) {
    if p.direction == Flat then p.quantity == 0.0 && p.lots == []
    else p.quantity > 0.0 && AllPositive(p.lots) && SumLots(p.lots) == p.quantity
  }

  lemma {:induction false} SumLotsConcat(a: seq<Lot>, b: seq<Lot>)
    ensures SumLots(a + b) == SumLots(a) + SumLots(b)
  {
    if b == [] {
      assert a + b == a;
    } else {
      assert (a + b)[..|a + b| - 1] == a + b[..|b| - 1];
      SumLotsConcat(a, b[..|b| - 1]);
    }
  }

  lemma SumLotsOne(lot: Lot)
    ensures SumLots([lot]) == lot.quantity
  {
    assert [lot][..0] == [];
  }

  lemma {:induction false} SumLotsPositive(lots: seq<Lot>)
    requires AllPositive(lots)
    ensures SumLots(lots) >= 0.0 && (SumLots(lots) == 0.0 <==> lots == [])
  {
    if lots != [] {
      SumLotsPositive(lots[..|lots| - 1]);
    }
  }

  lemma SplitAt(lots: seq<Lot>, i: nat, lot: Lot)
    requires i < |lots|
    ensures SumLots(lots[..i] + lots[i + 1..]) == SumLots(lots) - lots[i].quantity
    ensures SumLots(lots[i := lot]) == SumLots(lots) - lots[i].quantity + lot.quantity
  {
    hide SumLots;
    var before, after := lots[..i], lots[i + 1..];
    SumLotsConcat(before, after);
    SumLotsConcat(before, [lots[i]]);
    SumLotsConcat(before + [lots[i]], after);
    assert lots == before + [lots[i]] + after;
    SumLotsConcat(before, [lot]);
    SumLotsConcat(before + [lot], after);
    assert lots[i := lot] == before + [lot] + after;
    SumLotsOne(lots[i]);
    SumLotsOne(lot);
  }

  lemma PopStep(lots: seq<Lot>, remaining: real)
    requires lots != [] && 0.0 < remaining < lots[0].quantity
    ensures PopLots(lots, remaining) == lots[0 := lots[0].(quantity := lots[0].quantity - remaining)]
  {
  }

  lemma {:induction false} PopLotsMeaning(lots: seq<Lot>, remaining: real)
    requires AllPositive(lots) && 0.0 <= remaining <= SumLots(lots)
    ensures AllPositive(PopLots(lots, remaining)) && SumLots(PopLots(lots, remaining)) == SumLots(lots) - remaining
  {
    hide SumLots;
    if remaining == 0.0 || lots == [] {
      SumLotsPositive(lots);
    } else if lots[0].quantity <= remaining {
      SplitAt(lots, 0, lots[0]);
      assert lots[..0] + lots[1..] == lots[1..];
      PopLotsMeaning(lots[1..], remaining - lots[0].quantity);
      assert PopLots(lots, remaining) == PopLots(lots[1..], remaining - lots[0].quantity);
    } else {
      PopStep(lots, remaining);
      hide PopLots;
      SplitAt(lots, 0, lots[0].(quantity := lots[0].quantity - remaining));
    }
  }

  /** Reducing takes exactly the quantity out of the lots, whichever lot it starts from, and leaves them positive. */
  lemma ReduceLotsMeaning(lots: seq<Lot>, quantity: real, fromEntry: string)
    requires AllPositive(lots) && 0.0 < quantity <= SumLots(lots)
    ensures AllPositive(ReduceLots(lots, quantity, fromEntry))
    ensures SumLots(ReduceLots(lots, quantity, fromEntry)) == SumLots(lots) - quantity
  {
    hide SumLots, PopLots;
    var i := if fromEntry != "" then FirstLot(lots, fromEntry) else None;
    if i.None? {
      PopLotsMeaning(lots, quantity);
    } else {
      var lot := lots[i.value];
      SplitAt(lots, i.value, lot.(quantity := lot.quantity - quantity));
      if lot.quantity <= quantity {
        PopLotsMeaning(lots[..i.value] + lots[i.value + 1..], quantity - lot.quantity);
      } else {
        var reduced := lots[i.value := lot.(quantity := lot.quantity - quantity)];
        SumLotsPositive(reduced);
        PopLotsMeaning(reduced, 0.0);
      }
    }
  }

  /** The first k lots are used up, the next one in part or not at all, and the later ones are untouched. */
  predicate UsedUp(lots: seq<Lot>, quantity: real, k: nat, left: seq<Lot>) {
    && k <= |lots| && SumLots(lots[..k]) <= quantity
    && if SumLots(lots[..k]) == quantity then left == lots[k..]
       else
         && k < |lots| && quantity < SumLots(lots[..k + 1])
         && left == [lots[k].(quantity := SumLots(lots[..k + 1]) - quantity)] + lots[k + 1..]
  }

  /** The oldest lots go first. */
  ghost predicate OldestUsed(lots: seq<Lot>, quantity: real, left: seq<Lot>) {
    exists k: nat :: UsedUp(lots, quantity, k, left)
  }

  lemma NoneUsed(lots: seq<Lot>)
    ensures UsedUp(lots, 0.0, 0, lots)
  {
    assert lots[..0] == [] && lots[0..] == lots;
  }

  lemma FirstUsed(lots: seq<Lot>, quantity: real, k: nat, left: seq<Lot>)
    requires lots != [] && UsedUp(lots[1..], quantity - lots[0].quantity, k, left)
    ensures UsedUp(lots, quantity, k + 1, left)
  {
    PrefixSum(lots, k);
    assert lots[1..][k..] == lots[k + 1..];
    if k < |lots[1..]| {
      PrefixSum(lots, k + 1);
      assert lots[1..][k + 1..] == lots[k + 2..];
    }
    hide SumLots;
  }

  lemma FirstTrimmed(lots: seq<Lot>, quantity: real)
    requires lots != [] && 0.0 < quantity < lots[0].quantity
    ensures UsedUp(lots, quantity, 0, lots[0 := lots[0].(quantity := lots[0].quantity - quantity)])
  {
    assert lots[..0] == [] && lots[..1] == [lots[0]];
    assert SumLots(lots[..0]) == 0.0;
    SumLotsOne(lots[0]);
    hide SumLots;
  }

  lemma PrefixSum(lots: seq<Lot>, k: nat)
    requires k < |lots|
    ensures SumLots(lots[..k + 1]) == lots[0].quantity + SumLots(lots[1..][..k])
  {
    assert lots[..k + 1] == [lots[0]] + lots[1..][..k];
    SumLotsConcat([lots[0]], lots[1..][..k]);
    SumLotsOne(lots[0]);
    hide SumLots;
  }

  lemma {:induction false} PopsTheOldest(lots: seq<Lot>, quantity: real)
    requires AllPositive(lots) && 0.0 <= quantity <= SumLots(lots)
    ensures OldestUsed(lots, quantity, PopLots(lots, quantity))
  {
    hide SumLots, UsedUp;
    if quantity == 0.0 || lots == [] {
      SumLotsPositive(lots);
      NoneUsed(lots);
    } else if lots[0].quantity <= quantity {
      SplitAt(lots, 0, lots[0]);
      assert lots[..0] + lots[1..] == lots[1..];
      var rest := quantity - lots[0].quantity;
      PopsTheOldest(lots[1..], rest);
      assert PopLots(lots, quantity) == PopLots(lots[1..], rest);
      var k: nat :| UsedUp(lots[1..], rest, k, PopLots(lots[1..], rest));
      FirstUsed(lots, quantity, k, PopLots(lots[1..], rest));
    } else {
      PopStep(lots, quantity);
      hide PopLots;
      FirstTrimmed(lots, quantity);
    }
  }

  lemma {:induction false} FirstLotIs(lots: seq<Lot>, name: string, i: nat)
    requires i < |lots| && lots[i].entryName == name && forall j :: 0 <= j < i ==> lots[j].entryName != name
    ensures FirstLot(lots, name) == Some(i)
  {
    if i > 0 {
      assert forall j :: 0 <= j < i - 1 ==> lots[1..][j] == lots[j + 1];
      FirstLotIs(lots[1..], name, i - 1);
    }
  }

  lemma ReduceNamed(lots: seq<Lot>, quantity: real, fromEntry: string, i: nat)
    requires fromEntry != "" && i < |lots| && FirstLot(lots, fromEntry) == Some(i)
    ensures ReduceLots(lots, quantity, fromEntry)
      == if quantity < lots[i].quantity then lots[i := lots[i].(quantity := lots[i].quantity - quantity)]
         else PopLots(lots[..i] + lots[i + 1..], quantity - lots[i].quantity)
  {
    hide FirstLot;
    var trimmed := lots[i := lots[i].(quantity := lots[i].quantity - quantity)];
    assert PopLots(trimmed, 0.0) == trimmed;
    hide PopLots;
  }

  /** With a named entry its first lot goes first, and only what that does not cover comes from the oldest others. */
  lemma NamedGoesFirst(lots: seq<Lot>, quantity: real, fromEntry: string, i: nat)
    requires AllPositive(lots) && 0.0 < quantity <= SumLots(lots) && fromEntry != ""
    requires i < |lots| && lots[i].entryName == fromEntry && forall j :: 0 <= j < i ==> lots[j].entryName != fromEntry
    ensures var left := ReduceLots(lots, quantity, fromEntry); var others := lots[..i] + lots[i + 1..];
      if quantity < lots[i].quantity then left == lots[i := lots[i].(quantity := lots[i].quantity - quantity)]
      else OldestUsed(others, quantity - lots[i].quantity, left)
  {
    FirstLotIs(lots, fromEntry, i);
    ReduceNamed(lots, quantity, fromEntry, i);
    SplitAt(lots, i, lots[i]);
    OthersPositive(lots, i);
    hide *;
    if quantity >= lots[i].quantity {
      PopsTheOldest(lots[..i] + lots[i + 1..], quantity - lots[i].quantity);
    }
  }

  lemma OthersPositive(lots: seq<Lot>, i: nat)
    requires AllPositive(lots) && i < |lots|
    ensures AllPositive(lots[..i] + lots[i + 1..])
  {
  }

  /** Without one, or with one that holds no lot, the oldest go first. */
  lemma OldestGoFirst(lots: seq<Lot>, quantity: real, fromEntry: string)
    requires fromEntry == "" || forall lot :: lot in lots ==> lot.entryName != fromEntry
    requires AllPositive(lots) && 0.0 < quantity <= SumLots(lots)
    ensures OldestUsed(lots, quantity, ReduceLots(lots, quantity, fromEntry))
  {
    hide OldestUsed, SumLots;
    PopsTheOldest(lots, quantity);
    var i := FirstLot(lots, fromEntry);
    if fromEntry != "" && i.Some? {
      assert false;
    }
    hide PopLots, FirstLot;
  }

  /** Opening or adding leaves the lots accounting for the position exactly when the quantity is positive. */
  lemma OpenOrAddAccounted(p: Position, side: Side, quantity: real, price: real, entryName: string)
    requires Accounted(p)
    ensures Accounted(OpenOrAdd(p, side, quantity, price, entryName)) <==> quantity > 0.0
  {
    hide SumLots, Average, AllPositive;
    var lot := Lot(entryName, quantity, price);
    SumLotsOne(lot);
    SumLotsConcat(p.lots, [lot]);
    AllPositiveMore(p.lots, lot);
    AllPositiveMore([], lot);
    assert [] + [lot] == [lot];
  }

  lemma AllPositiveMore(lots: seq<Lot>, lot: Lot)
    ensures AllPositive(lots + [lot]) <==> AllPositive(lots) && lot.quantity > 0.0
    ensures AllPositive([])
  {
    var more := lots + [lot];
    assert more[|lots|] == lot && forall i :: 0 <= i < |lots| ==> more[i] == lots[i];
  }

  /** What is left of a position after closing a quantity of it. */
  function Reduced(p: Position, quantity: real, fromEntry: string): Position {
    var left := p.quantity - quantity;
    if left <= 0.0 then NoPosition else p.(quantity := left, lots := ReduceLots(p.lots, quantity, fromEntry))
  }

  lemma ReducedAccounted(p: Position, quantity: real, fromEntry: string)
    requires Accounted(p) && p.direction != Flat && 0.0 < quantity <= p.quantity
    ensures Accounted(Reduced(p, quantity, fromEntry))
    ensures SumLots(ReduceLots(p.lots, quantity, fromEntry)) == p.quantity - quantity
    ensures Reduced(p, quantity, fromEntry).direction == Flat <==> ReduceLots(p.lots, quantity, fromEntry) == []
  {
    ReduceLotsMeaning(p.lots, quantity, fromEntry);
    SumLotsPositive(ReduceLots(p.lots, quantity, fromEntry));
    hide SumLots, ReduceLots;
  }
}

/** Cash paid and received, as an account book of the fills alone. */
module CashLedger {
  import opened Arithmetic
  import opened Prelude
  import opened Orders
  import opened Positions

  datatype Fill = Fill(order: Order, fillPrice: real)

  /** A signed position and the cash it took. */
  datatype Book = Book(position: real, cash: real)

  /** A fill against the position trades no more than it closes. */
  function Traded(position: real, action: Action, quantity: real): real {
    if action == Buy then (if position < 0.0 then Min(quantity, -position) else quantity)
    else (if position > 0.0 then Min(quantity, position) else quantity)
  }

  function Booked(b: Book, f: Fill): Book {
    var traded := Traded(b.position, f.order.action, f.order.quantity);
    if f.order.action == Buy then Book(b.position + traded, b.cash - Times(traded, f.fillPrice))
    else Book(b.position - traded, b.cash + Times(traded, f.fillPrice))
  }

  function Replay(fills: seq<Fill>): Book {
    if fills == [] then Book(0.0, 0.0) else Booked(Replay(fills[..|fills| - 1]), fills[|fills| - 1])
  }

  function Signed(p: Position): real {
    match p.direction
    case Long => p.quantity
    case Short => -p.quantity
    case Flat => 0.0
  }

  function TotalPnl(trades: seq<Trade>): real {
    if trades == [] then 0.0 else TotalPnl(trades[..|trades| - 1]) + trades[|trades| - 1].pnl
  }

  function TotalFees(trades: seq<Trade>): real {
    if trades == [] then 0.0 else TotalFees(trades[..|trades| - 1]) + trades[|trades| - 1].commission
  }

  /** The average keeps the cost of a position. */
  lemma AverageKeepsCost(avgPrice: real, held: real, price: real, quantity: real)
    requires held > 0.0 && quantity > 0.0
    ensures Times(Average(avgPrice, held, price, quantity), held + quantity)
      == Times(avgPrice, held) + Times(price, quantity)
  {
    var cost := avgPrice * held + price * quantity;
    DivideBack(cost, held + quantity);
  }

  lemma DivideBack(x: real, d: real)
    requires d != 0.0
    ensures x / d * d == x
  {
  }

  /** Selling part of a position at a price moves its cost to profit and cash. */
  lemma CloseKeepsCost(direction: Direction, avgPrice: real, price: real, held: real, quantity: real)
    ensures direction == Long ==>
      Profit(direction, avgPrice, price, quantity)
        == Times(price, quantity) - (Times(avgPrice, held) - Times(avgPrice, held - quantity))
    ensures direction != Long ==>
      Profit(direction, avgPrice, price, quantity)
        == (Times(avgPrice, held) - Times(avgPrice, held - quantity)) - Times(price, quantity)
  {
  }

  lemma TimesFacts(a: real, b: real)
    ensures Times(a, b) == Times(b, a) && Times(a, -b) == -Times(a, b) && Times(a, 0.0) == 0.0
  {
  }

  // ----- Average cost and cash agree -----

  /**
   * A position against the book of its fills: the same signed quantity, and the money gained so far is the cash
   * received plus the position at cost, less the fees of the closed trades; it is also the sum of their profits.
   */
  predicate Balanced(p: Position, b: Book, gained: real, fees: real, pnl: real) {
    && Accounted(p) && Signed(p) == b.position
    && gained == b.cash + Times(p.avgPrice, Signed(p)) - fees
    && gained == pnl
  }

  /** The position a fill of this action adds to, or opens. */
  function SideOf(action: Action): Side {
    if action == Buy then Long else Short
  }

  predicate Adds(p: Position, action: Action) {
    p.direction == Flat || p.direction == SideOf(action)
  }

  lemma OpenKeepsBalance(p: Position, b: Book, gained: real, fees: real, pnl: real, f: Fill)
    requires Balanced(p, b, gained, fees, pnl) && Adds(p, f.order.action) && f.order.quantity > 0.0
    ensures var after := OpenOrAdd(p, SideOf(f.order.action), f.order.quantity, f.fillPrice, f.order.entryName);
      Balanced(after, Booked(b, f), gained, fees, pnl)
  {
    var q := f.order.quantity;
    OpenOrAddAccounted(p, SideOf(f.order.action), q, f.fillPrice, f.order.entryName);
    TimesFacts(q, f.fillPrice);
    TimesFacts(f.fillPrice, q);
    TimesFacts(p.avgPrice, p.quantity);
    TimesFacts(p.avgPrice, 0.0);
    if p.direction != Flat {
      AverageKeepsCost(p.avgPrice, p.quantity, f.fillPrice, q);
      TimesFacts(Average(p.avgPrice, p.quantity, f.fillPrice, q), p.quantity + q);
    }
    hide Times, Average, Accounted;
  }

  /** Closing no more than is held books its profit. */
  lemma CloseKeepsBalance(p: Position, b: Book, gained: real, fees: real, pnl: real, f: Fill, fee: real)
    requires Balanced(p, b, gained, fees, pnl) && !Adds(p, f.order.action) && f.order.quantity > 0.0
    ensures var traded := Min(f.order.quantity, p.quantity);
      var profit := Profit(p.direction, p.avgPrice, f.fillPrice, traded) - fee;
      Balanced(Reduced(p, traded, f.order.fromEntry), Booked(b, f), gained + profit, fees + fee, pnl + profit)
  {
    var traded := Min(f.order.quantity, p.quantity);
    ReducedAccounted(p, traded, f.order.fromEntry);
    CloseKeepsCost(p.direction, p.avgPrice, f.fillPrice, p.quantity, traded);
    TimesFacts(traded, f.fillPrice);
    TimesFacts(p.avgPrice, p.quantity);
    TimesFacts(p.avgPrice, p.quantity - traded);
    TimesFacts(0.0, 0.0);
    hide Times, ReduceLots, Profit, SumLots;
  }
}

/** The backtest engine's orders and fills (src/strategy/strategy-engine.ts). */
module StrategyEngine {
  import opened Arithmetic
  import opened Prelude
  import opened Orders
  import opened TrailingStop
  import opened Positions
  import opened CashLedger

  datatype CommissionType = Percent | Fixed | PerContract | PerOrder

  datatype QtyType = Contracts | PercentOfEquity | Cash

  datatype FillPriceMode = AtOpen | Ohlc4 | AtClose | AtHigh | AtLow

  /** moduleFee is the fee of a round trip of a given entry value, where a commission method is set. */
  datatype Config = Config(
    initialCapital: real, marginLong: real, marginShort: real, pyramiding: int,
    slippage: real, slippageInTicks: bool, commission: real, commissionType: CommissionType,
    moduleFees: bool, longOnly: bool, moduleFee: (Direction, real) -> real,
    defaultQty: real, defaultQtyType: QtyType, marketFillPrice: FillPriceMode)

  /** `charged` sums what fills were charged directly; the source keeps no such total. */
  datatype State = State(
    position: Position, pending: seq<Order>, filled: seq<Fill>, trades: seq<Trade>,
    equity: real, peakEquity: real, maxDrawdown: real, charged: real,
    currentPrice: real, entries: nat, nextOrderId: nat, stops: Stops)

  function Fresh(config: Config): State {
    State(NoPosition, [], [], [], config.initialCapital, config.initialCapital, 0.0, 0.0, 0.0, 0, 0, map[])
  }

  // ----- Lists of orders -----

  function Keep(orders: seq<Order>, p: Order -> bool): seq<Order> {
    if orders == [] then []
    else
      var front := Keep(orders[..|orders| - 1], p);
      if p(orders[|orders| - 1]) then front + [orders[|orders| - 1]] else front
  }

  function OcaGroup(entryName: string): string {
    "oca_" + entryName
  }

  function CancelGroup(s: State, group: string): State {
    s.(pending := Keep(s.pending, (o: Order) => o.ocaGroup != Some(group)))
  }

  // ----- Fills -----

  function Slippage(config: Config, price: real): real {
    if config.slippage == 0.0 then 0.0
    else if config.slippageInTicks then config.slippage
    else price * (config.slippage / 100.0)
  }

  function Commission(config: Config, quantity: real, price: real): real {
    if config.commission == 0.0 then 0.0
    else
      match config.commissionType
      case Fixed => config.commission
      case PerOrder => config.commission
      case PerContract => config.commission * quantity
      case Percent => price * quantity * (config.commission / 100.0)
  }

  /** What one fill is charged directly: nothing under a commission method, and flat fees only on opening. */
  function FillCharge(config: Config, flat: bool, quantity: real, price: real): real {
    if config.moduleFees then 0.0
    else if !flat && (config.commissionType == Fixed || config.commissionType == PerOrder) then 0.0
    else Commission(config, quantity, price)
  }

  function UpdateDrawdown(s: State, value: real): State {
    var peak := if value > s.peakEquity then value else s.peakEquity;
    s.(peakEquity := peak, maxDrawdown := if peak - value > s.maxDrawdown then peak - value else s.maxDrawdown)
  }

  function Opened(s: State, side: Side, quantity: real, price: real, entryName: string): State {
    s.(position := OpenOrAdd(s.position, side, quantity, price, entryName),
       stops := if s.position.direction == Flat then map[] else s.stops)
  }

  /** The fees a closing fill takes off its trade. */
  function TradeFees(config: Config, p: Position, quantity: real, charge: real): real {
    if config.moduleFees then config.moduleFee(p.direction, Times(p.avgPrice, quantity)) else charge
  }

  function TradeOf(config: Config, p: Position, quantity: real, price: real, charge: real, exitName: string): Trade {
    var fees := TradeFees(config, p, quantity, charge);
    Trade(p.direction, p.avgPrice, price, quantity, Profit(p.direction, p.avgPrice, price, quantity) - fees, fees,
      exitName)
  }

  function ClosedOrReduced(s: State, config: Config, quantity: real, price: real, charge: real,
                           exitName: string, fromEntry: string): State {
    var p := s.position;
    var traded := Min(quantity, p.quantity);
    var trade := TradeOf(config, p, traded, price, charge, exitName);
    var booked := s.(trades := s.trades + [trade], equity := s.equity + trade.pnl,
      position := Reduced(p, traded, fromEntry));
    var after :=
      if booked.position.direction != Flat then booked
      else if p.entryName != "" then CancelGroup(booked, OcaGroup(p.entryName)).(entries := 0)
      else booked.(entries := 0);
    UpdateDrawdown(after, after.equity)
  }

  function AdjustedPrice(config: Config, action: Action, price: real): real {
    if action == Buy then price + Slippage(config, price) else price - Slippage(config, price)
  }

  function FillOrder(s: State, config: Config, order: Order, fillPrice: real): State {
    var price := AdjustedPrice(config, order.action, fillPrice);
    var charge := FillCharge(config, s.position.direction == Flat, order.quantity, fillPrice);
    var listed := s.(filled := s.filled + [Fill(order, price)]);
    var traded :=
      if Adds(s.position, order.action) then
        Opened(listed, SideOf(order.action), order.quantity, price, order.entryName)
      else ClosedOrReduced(listed, config, order.quantity, price, charge, order.entryName, order.fromEntry);
    traded.(equity := traded.equity - charge, charged := traded.charged + charge)
  }

  // ----- One bar -----

  datatype Bar = Bar(open: real, high: real, low: real, close: real)

  function MarketFillPrice(config: Config, b: Bar): real {
    match config.marketFillPrice
    case AtOpen => b.open
    case Ohlc4 => (b.open + b.high + b.low + b.close) / 4.0
    case AtClose => b.close
    case AtHigh => b.high
    case AtLow => b.low
  }

  function FillAll(s: State, config: Config, orders: seq<Order>, price: real): State {
    if orders == [] then s
    else FillOrder(FillAll(s, config, orders[..|orders| - 1], price), config, orders[|orders| - 1], price)
  }

  function FillMarketOrders(s: State, config: Config, b: Bar): State {
    var market := Keep(s.pending, (o: Order) => o.kind == Market);
    FillAll(s.(pending := Keep(s.pending, (o: Order) => o.kind != Market)), config, market, MarketFillPrice(config, b))
  }

  function Trail(s: State, b: Bar): State {
    var (pending, stops) := UpdateAll(s.pending, s.stops,
      Tick(s.position.direction, s.position.avgPrice, b.high, b.low, b.close));
    s.(pending := pending, stops := stops)
  }

  predicate LimitHit(o: Order, b: Bar) {
    if o.action == Buy then b.low <= o.limitPrice.GetOr(o.price) else b.high >= o.limitPrice.GetOr(o.price)
  }

  predicate StopHit(o: Order, b: Bar) {
    if o.action == Buy then b.high >= o.stopPrice.GetOr(o.price) else b.low <= o.stopPrice.GetOr(o.price)
  }

  predicate Hit(o: Order, b: Bar) {
    (o.kind == Limit && LimitHit(o, b)) || (o.kind == Stop && StopHit(o, b))
  }

  predicate Triggered(o: Order, b: Bar) {
    o.kind == StopLimit && StopHit(o, b)
  }

  function TriggerPrice(o: Order): real {
    if o.kind == Limit then o.limitPrice.GetOr(o.price) else o.stopPrice.GetOr(o.price)
  }

  function CancelSiblings(s: State, o: Order): State {
    if o.ocaGroup.Some? then CancelGroup(s, o.ocaGroup.value) else s
  }

  function FillHits(s: State, config: Config, orders: seq<Order>): State {
    if orders == [] then s
    else
      var o := orders[|orders| - 1];
      CancelSiblings(FillOrder(FillHits(s, config, orders[..|orders| - 1]), config, o, TriggerPrice(o)), o)
  }

  /** A stop-limit order whose stop was hit becomes a limit order with a new id. */
  function Converted(o: Order, id: OrderId): Order {
    var limit := o.limitPrice.GetOr(o.price);
    o.(id := id, kind := Limit, price := limit, limitPrice := Some(limit), stopPrice := None)
  }

  function Push(s: State, o: Order): State {
    s.(pending := s.pending + [o], nextOrderId := o.id)
  }

  function TriggerOne(s: State, config: Config, o: Order, b: Bar): State {
    if LimitHit(o, b) then CancelSiblings(FillOrder(s, config, o, o.limitPrice.GetOr(o.price)), o)
    else Push(s, Converted(o, s.nextOrderId + 1))
  }

  function TriggerAll(s: State, config: Config, orders: seq<Order>, b: Bar): State {
    if orders == [] then s
    else TriggerOne(TriggerAll(s, config, orders[..|orders| - 1], b), config, orders[|orders| - 1], b)
  }

  function ProcessPending(s: State, config: Config, b: Bar): State {
    var hits := Keep(s.pending, (o: Order) => Hit(o, b));
    var triggers := Keep(s.pending, (o: Order) => Triggered(o, b));
    var rest := Keep(s.pending, (o: Order) => !Hit(o, b) && !Triggered(o, b));
    TriggerAll(FillHits(s.(pending := rest), config, hits), config, triggers, b)
  }

  function OpenProfit(p: Position, price: real): real {
    if p.direction == Flat then 0.0 else Profit(p.direction, p.avgPrice, price, p.quantity)
  }

  function MarkToMarket(s: State, price: real): State {
    if s.position.direction == Flat then s
    else
      var profit := OpenProfit(s.position, price);
      UpdateDrawdown(s.(position := s.position.(unrealizedPnl := profit)), s.equity + profit)
  }

  function GetEquity(s: State): real {
    if s.position.direction == Flat then s.equity else s.equity + s.position.unrealizedPnl
  }

  // ----- Placing orders -----

  function MarginRate(config: Config, direction: Direction): real {
    if direction == Long then config.marginLong else config.marginShort
  }

  function MarginUsed(s: State, config: Config): real {
    if s.position.direction == Flat then 0.0
    else s.currentPrice * s.position.quantity * MarginRate(config, s.position.direction)
  }

  function FreeMargin(s: State, config: Config): real {
    s.equity + s.position.unrealizedPnl - MarginUsed(s, config)
  }

  function DefaultQuantity(s: State, config: Config): real {
    match config.defaultQtyType
    case Contracts => config.defaultQty
    case Cash => if s.currentPrice > 0.0 then config.defaultQty / s.currentPrice else 0.0
    case PercentOfEquity =>
      if s.currentPrice > 0.0 then (s.equity + s.position.unrealizedPnl) * (config.defaultQty / 100.0) / s.currentPrice
      else 0.0
  }

  predicate CanOpen(s: State, config: Config, side: Side, quantity: real) {
    var affordable := s.currentPrice * quantity * MarginRate(config, side) <= FreeMargin(s, config);
    if s.position.direction == Flat then affordable
    else if s.position.direction == side then s.entries < config.pyramiding + 1 && affordable
    else false
  }

  function KindOf(stopPrice: Option<real>, limitPrice: Option<real>): OrderType {
    if Positive(stopPrice) && Positive(limitPrice) then StopLimit
    else if Positive(stopPrice) then Stop
    else if Positive(limitPrice) then Limit
    else Market
  }

  function PriceOf(s: State, kind: OrderType, price: real): real {
    if kind == Market && price == 0.0 then s.currentPrice else price
  }

  /** close: a market order for the whole position. */
  function Closing(s: State, name: string): State {
    if s.position.direction == Flat || s.position.quantity == 0.0 then s
    else
      Push(s, Order(s.nextOrderId + 1, if s.position.direction == Long then Sell else Buy, Market, s.position.quantity,
                    s.currentPrice, None, None, name, None, None, None, ""))
  }

  function NameOr(entryName: string, name: string): string {
    if entryName != "" then entryName else name
  }

  datatype Request = Request(name: string, side: Side, quantity: Option<real>, price: real,
                             stopPrice: Option<real>, limitPrice: Option<real>)

  function Requested(s: State, config: Config, r: Request): Order {
    var kind := KindOf(r.stopPrice, r.limitPrice);
    Order(s.nextOrderId + 1, if r.side == Long then Buy else Sell, kind, QuantityOf(s, config, r),
      PriceOf(s, kind, r.price),
          r.stopPrice, r.limitPrice, r.name, None, None, None, "")
  }

  function QuantityOf(s: State, config: Config, r: Request): real {
    r.quantity.GetOr(DefaultQuantity(s, config))
  }

  function AfterEntry(s: State, config: Config, r: Request): State {
    var quantity := QuantityOf(s, config, r);
    if config.moduleFees && config.longOnly && r.side == Short then
      if s.position.direction == Long then Closing(s, NameOr(s.position.entryName, r.name)) else s
    else if CanOpen(s, config, r.side, quantity) then
      Push(s, Requested(s, config, r)).(entries := s.entries + 1)
    else if s.position.direction != Flat && s.position.direction != r.side then
      var closing := Closing(s, NameOr(s.position.entryName, r.name));
      Push(closing, Requested(s, config, r).(id := closing.nextOrderId + 1)).(entries := s.entries + 1)
    else s
  }

  function AfterOrder(s: State, config: Config, r: Request): State {
    if config.moduleFees && config.longOnly && r.side == Short && s.position.direction != Long then s
    else Push(s, Requested(s, config, r))
  }

  datatype ExitRequest = ExitRequest(name: string, quantity: Option<real>, price: real, stopPrice: Option<real>,
                                     limitPrice: Option<real>, fromEntry: string, trailPrice: Option<real>,
                                     trailOffset: Option<real>)

  /** The quantity held in the lots of one entry. */
  function LotsOf(lots: seq<Lot>, entryName: string): real {
    if lots == [] then 0.0
    else
      LotsOf(lots[..|lots| - 1], entryName)
      + if lots[|lots| - 1].entryName == entryName then lots[|lots| - 1].quantity else 0.0
  }

  function FirstMarket(orders: seq<Order>): (o: Option<Order>)
    ensures o.Some? ==> o.value in orders
  {
    if orders == [] then None else if orders[0].kind == Market then Some(orders[0]) else FirstMarket(orders[1..])
  }

  function Opposite(action: Action): Action {
    if action == Buy then Sell else Buy
  }

  /** What an exit would trade: its action and its quantity, if it can exit anything. */
  function ExitTarget(s: State, r: ExitRequest): Option<(Action, real)> {
    var p := s.position;
    var quantity := r.quantity.GetOr(p.quantity);
    if p.direction != Flat && p.quantity > 0.0 then
      var action := if p.direction == Long then Sell else Buy;
      if r.fromEntry != "" && p.lots != [] then
        var matching := LotsOf(p.lots, r.fromEntry);
        if matching <= 0.0 then None
        else Some((action, Min(if quantity == p.quantity then matching else quantity, matching)))
      else Some((action, Min(quantity, p.quantity)))
    else
      var entry := FirstMarket(s.pending);
      if entry.None? then None
      else Some((Opposite(entry.value.action), if quantity != 0.0 then quantity else entry.value.quantity))
  }

  function ExitKind(r: ExitRequest): OrderType {
    var kind := KindOf(r.stopPrice, r.limitPrice);
    if kind == Market && (Positive(r.trailPrice) || Positive(r.trailOffset)) then Stop else kind
  }

  function ExitOrder(s: State, r: ExitRequest, action: Action, quantity: real): Order {
    var kind := ExitKind(r);
    Order(s.nextOrderId + 1, action, kind, quantity, PriceOf(s, kind, r.price), r.stopPrice, r.limitPrice, r.name,
          if kind != Market && s.position.direction != Flat then Some(OcaGroup(s.position.entryName)) else None,
          r.trailPrice, r.trailOffset, r.fromEntry)
  }

  /** An exit at market fills at once. */
  function AfterExit(s: State, config: Config, r: ExitRequest): State {
    var target := ExitTarget(s, r);
    if target.None? then s
    else
      var order := ExitOrder(s, r, target.value.0, target.value.1);
      if order.kind == Market then FillOrder(s.(nextOrderId := order.id), config, order, order.price)
      else Push(s, order)
  }

  /** The place of the first order with an id. */
  function FindOrder(orders: seq<Order>, id: OrderId): (i: Option<nat>)
    ensures i.Some? ==> i.value < |orders| && orders[i.value].id == id
    ensures i.None? ==> forall o :: o in orders ==> o.id != id
  {
    if orders == [] then None
    else if orders[0].id == id then Some(0)
    else
      var rest := FindOrder(orders[1..], id);
      if rest.Some? then Some(rest.value + 1) else None
  }

  function AfterCancel(s: State, id: OrderId): State {
    var i := FindOrder(s.pending, id);
    if i.None? then s else s.(pending := s.pending[..i.value] + s.pending[i.value + 1..])
  }

  function CheckLiquidation(s: State, config: Config): State {
    var rate := MarginRate(config, s.position.direction);
    if s.position.direction == Flat || s.position.quantity == 0.0 || rate <= 0.0 then s
    else if s.equity + s.position.unrealizedPnl < s.currentPrice * s.position.quantity * rate then
      Closing(s, "liquidation")
    else s
  }

  function AfterBar(s: State, config: Config, b: Bar): State {
    var filled := FillMarketOrders(s.(currentPrice := b.close), config, b);
    CheckLiquidation(MarkToMarket(ProcessPending(Trail(filled, b), config, b), b.close), config)
  }

  datatype Op =
    | Entry(request: Request)
    | PlaceOrder(request: Request)
    | Exit(exit: ExitRequest)
    | Close(name: string)
    | Cancel(id: OrderId)
    | CancelAll
    | UpdateBar(bar: Bar)
    | Restore(to: nat)   // go back to what was saved after so many operations

  /** restoreState: everything saved comes back, but the order counter and the price stay as they are. */
  function Restored(s: State, saved: State): State {
    saved.(nextOrderId := s.nextOrderId, currentPrice := s.currentPrice)
  }

  function Next(s: State, config: Config, op: Op): State {
    match op
    case Entry(r) => AfterEntry(s, config, r)
    case PlaceOrder(r) => AfterOrder(s, config, r)
    case Exit(r) => AfterExit(s, config, r)
    case Close(name) => Closing(s, name)
    case Cancel(id) => AfterCancel(s, id)
    case CancelAll => s.(pending := [])
    case UpdateBar(b) => AfterBar(s, config, b)
    case Restore(_) => s
  }

  function Run(config: Config, ops: seq<Op>): State {
    if ops == [] then Fresh(config)
    else
      var m := |ops| - 1;
      var before := Run(config, ops[..m]);
      match ops[m]
      case Restore(k) => if k <= m then Restored(before, Run(config, ops[..k])) else before
      case op => Next(before, config, op)
  }

  // ----- The ledger identity -----

  /** The position and what was gained agree with the cash book of the state's own fills. */
  predicate Money(s: State, config: Config) {
    Balanced(s.position, Replay(s.filled), s.equity + s.charged - config.initialCapital, TotalFees(s.trades),
      TotalPnl(s.trades))
  }

  /** Equity moved by the profits of the trades and by what fills were charged. */
  predicate EquityIsBooked(s: State, config: Config) {
    && s.equity == config.initialCapital + TotalPnl(s.trades) - s.charged
    && (config.moduleFees || config.commission == 0.0 ==> s.charged == 0.0)
  }

  lemma Listed(fills: seq<Fill>, f: Fill, trades: seq<Trade>, t: Trade)
    ensures Replay(fills + [f]) == Booked(Replay(fills), f)
    ensures TotalFees(trades + [t]) == TotalFees(trades) + t.commission
      && TotalPnl(trades + [t]) == TotalPnl(trades) + t.pnl
  {
    assert (fills + [f])[..|fills + [f]| - 1] == fills && (trades + [t])[..|trades + [t]| - 1] == trades;
    hide Booked;
  }

  lemma FillKeepsMoney(s: State, config: Config, order: Order, fillPrice: real)
    requires Money(s, config) && order.quantity > 0.0
    ensures Money(FillOrder(s, config, order, fillPrice), config)
  {
    var f := Fill(order, AdjustedPrice(config, order.action, fillPrice));
    var b := Replay(s.filled);
    var p := s.position;
    var gained, fees, pnl := s.equity + s.charged - config.initialCapital, TotalFees(s.trades), TotalPnl(s.trades);
    var charge := FillCharge(config, p.direction == Flat, order.quantity, fillPrice);
    hide AdjustedPrice, FillCharge, Balanced, Booked, Replay, TotalFees, TotalPnl;
    if Adds(p, order.action) {
      OpenKeepsBalance(p, b, gained, fees, pnl, f);
      Listed(s.filled, f, [], Trade(Flat, 0.0, 0.0, 0.0, 0.0, 0.0, ""));
    } else {
      var traded := Min(order.quantity, p.quantity);
      var trade := TradeOf(config, p, traded, f.fillPrice, charge, order.entryName);
      CloseKeepsBalance(p, b, gained, fees, pnl, f, trade.commission);
      Listed(s.filled, f, s.trades, trade);
      assert FillOrder(s, config, order, fillPrice).trades == s.trades + [trade];
      hide Profit, TradeFees, Reduced, Min, Keep;
    }
  }

  lemma FillKeepsEquity(s: State, config: Config, order: Order, fillPrice: real)
    requires EquityIsBooked(s, config)
    ensures EquityIsBooked(FillOrder(s, config, order, fillPrice), config)
  {
    var price := AdjustedPrice(config, order.action, fillPrice);
    var charge := FillCharge(config, s.position.direction == Flat, order.quantity, fillPrice);
    ChargeIsFree(config, s.position.direction == Flat, order.quantity, fillPrice);
    hide AdjustedPrice, FillCharge, TotalPnl, TotalFees, Booked, Replay;
    if !Adds(s.position, order.action) {
      var traded := Min(order.quantity, s.position.quantity);
      var trade := TradeOf(config, s.position, traded, price, charge, order.entryName);
      Listed([], Fill(order, price), s.trades, trade);
      assert FillOrder(s, config, order, fillPrice).trades == s.trades + [trade];
    }
    hide TradeOf, Reduced, OpenOrAdd, Keep;
  }

  lemma ChargeIsFree(config: Config, flat: bool, quantity: real, price: real)
    ensures config.moduleFees || config.commission == 0.0 ==> FillCharge(config, flat, quantity, price) == 0.0
  {
  }

  // ----- Every order is filled at most once -----

  predicate NotFilled(filled: seq<Fill>, id: OrderId) {
    forall k :: 0 <= k < |filled| ==> filled[k].order.id != id
  }

  predicate DistinctFills(filled: seq<Fill>) {
    forall i, j :: 0 <= i < j < |filled| ==> filled[i].order.id != filled[j].order.id
  }

  predicate OrderOk(o: Order, filled: seq<Fill>, next: OrderId) {
    o.id <= next && NotFilled(filled, o.id)
  }

  /** Orders still open, with distinct ids that were issued and are not filled. */
  predicate OpenOrders(orders: seq<Order>, filled: seq<Fill>, next: OrderId) {
    DistinctIds(orders) && forall o :: o in orders ==> OrderOk(o, filled, next)
  }

  predicate IssuedFills(filled: seq<Fill>, next: OrderId) {
    DistinctFills(filled) && forall k :: 0 <= k < |filled| ==> filled[k].order.id <= next
  }

  /** What every operation keeps; the open orders are the pending ones and those in hand. */
  predicate Sound(s: State, config: Config, hand: seq<Order>) {
    && EquityIsBooked(s, config)
    && OpenOrders(s.pending + hand, s.filled, s.nextOrderId) && IssuedFills(s.filled, s.nextOrderId)
  }

  predicate PositiveOrders(orders: seq<Order>) {
    forall o :: o in orders ==> o.quantity > 0.0
  }

  /** What every operation keeps that trades positive quantities: the money adds up, and open orders are positive. */
  predicate Funded(s: State, config: Config, hand: seq<Order>) {
    Money(s, config) && PositiveOrders(s.pending) && PositiveOrders(hand)
  }

  lemma {:induction false} KeepMeaning(orders: seq<Order>, p: Order -> bool)
    ensures forall o :: o in Keep(orders, p) <==> o in orders && p(o)
    ensures DistinctIds(orders) ==> DistinctIds(Keep(orders, p))
  {
    if orders != [] {
      var m := |orders| - 1;
      KeepMeaning(orders[..m], p);
      assert orders == orders[..m] + [orders[m]];
      assert forall o :: o in Keep(orders[..m], p) ==> o in orders[..m];
      assert DistinctIds(orders) ==> forall o :: o in orders[..m] ==> o.id != orders[m].id;
    }
  }

  predicate Apart(a: seq<Order>, b: seq<Order>) {
    forall x, y :: x in a && y in b ==> x.id != y.id
  }

  lemma DistinctConcat(a: seq<Order>, b: seq<Order>)
    ensures DistinctIds(a + b) <==> DistinctIds(a) && DistinctIds(b) && Apart(a, b)
  {
    if DistinctIds(a + b) {
      forall x, y | x in a && y in b
        ensures x.id != y.id
      {
        var i :| 0 <= i < |a| && a[i] == x;
        var j :| 0 <= j < |b| && b[j] == y;
        assert (a + b)[i] == x && (a + b)[|a| + j] == y;
      }
      forall i, j | 0 <= i < j < |b|
        ensures b[i].id != b[j].id
      {
        assert (a + b)[|a| + i] == b[i] && (a + b)[|a| + j] == b[j];
      }
      forall i, j | 0 <= i < j < |a|
        ensures a[i].id != a[j].id
      {
        assert (a + b)[i] == a[i] && (a + b)[j] == a[j];
      }
    }
  }

  lemma SameId(orders: seq<Order>, x: Order, y: Order)
    requires DistinctIds(orders) && x in orders && y in orders && x.id == y.id
    ensures x == y
  {
  }

  /** Any choice of open orders is open. */
  lemma ChosenAreOpen(orders: seq<Order>, chosen: seq<Order>, filled: seq<Fill>, next: OrderId)
    requires OpenOrders(orders, filled, next) && DistinctIds(chosen) && forall o :: o in chosen ==> o in orders
    ensures OpenOrders(chosen, filled, next)
  {
    hide OrderOk, DistinctIds;
  }

  /** Dropping pending orders keeps the open ones in order. */
  lemma KeepIsOpen(pending: seq<Order>, p: Order -> bool, hand: seq<Order>, filled: seq<Fill>, next: OrderId)
    requires OpenOrders(pending + hand, filled, next)
    ensures OpenOrders(Keep(pending, p) + hand, filled, next)
  {
    KeepMeaning(pending, p);
    DistinctConcat(pending, hand);
    DistinctConcat(Keep(pending, p), hand);
    hide Keep, DistinctIds, OrderOk;
    ChosenAreOpen(pending + hand, Keep(pending, p) + hand, filled, next);
  }

  lemma KeepIsPositive(orders: seq<Order>, p: Order -> bool)
    ensures PositiveOrders(orders) ==> PositiveOrders(Keep(orders, p))
  {
    KeepMeaning(orders, p);
  }

  lemma CancelKeepsSound(s: State, config: Config, group: string, hand: seq<Order>)
    requires Sound(s, config, hand)
    ensures Sound(CancelGroup(s, group), config, hand)
    ensures Funded(s, config, hand) ==> Funded(CancelGroup(s, group), config, hand)
  {
    KeepIsOpen(s.pending, (o: Order) => o.ocaGroup != Some(group), hand, s.filled, s.nextOrderId);
    KeepIsPositive(s.pending, (o: Order) => o.ocaGroup != Some(group));
    hide OpenOrders, PositiveOrders, Keep, Balanced, Replay, TotalFees, TotalPnl;
  }

  /** What a fill does to the lists of orders. */
  lemma FillEffect(s: State, config: Config, order: Order, fillPrice: real)
    ensures var after := FillOrder(s, config, order, fillPrice);
      && after.nextOrderId == s.nextOrderId
      && after.filled == s.filled + [Fill(order, AdjustedPrice(config, order.action, fillPrice))]
      && (after.pending == s.pending
          || after.pending == Keep(s.pending, (o: Order) => o.ocaGroup != Some(OcaGroup(s.position.entryName))))
  {
    hide FillCharge, AdjustedPrice, TradeOf, Reduced, Keep, OpenOrAdd, Min;
  }

  lemma FilledIsDone(open: seq<Order>, order: Order, rest: seq<Order>, filled: seq<Fill>, price: real, next: OrderId)
    requires OpenOrders(open + ([order] + rest), filled, next) && IssuedFills(filled, next)
    ensures OpenOrders(open + rest, filled + [Fill(order, price)], next)
      && IssuedFills(filled + [Fill(order, price)], next)
  {
    DistinctConcat(open, [order] + rest);
    DistinctConcat([order], rest);
    DistinctConcat(open, rest);
    assert order in open + ([order] + rest) && OrderOk(order, filled, next);
    forall o | o in open + rest
      ensures OrderOk(o, filled + [Fill(order, price)], next)
    {
      assert o in open + ([order] + rest) && OrderOk(o, filled, next);
      assert o.id != order.id;
    }
  }

  lemma FillKeepsSound(s: State, config: Config, order: Order, fillPrice: real, rest: seq<Order>)
    requires Sound(s, config, [order] + rest)
    ensures Sound(FillOrder(s, config, order, fillPrice), config, rest)
    ensures Funded(s, config, [order] + rest) ==> Funded(FillOrder(s, config, order, fillPrice), config, rest)
  {
    var price := AdjustedPrice(config, order.action, fillPrice);
    var others := (o: Order) => o.ocaGroup != Some(OcaGroup(s.position.entryName));
    FillEffect(s, config, order, fillPrice);
    FillKeepsEquity(s, config, order, fillPrice);
    if Funded(s, config, [order] + rest) {
      assert order in [order] + rest && forall o :: o in rest ==> o in [order] + rest;
      FillKeepsMoney(s, config, order, fillPrice);
      KeepIsPositive(s.pending, others);
    }
    FilledIsDone(s.pending, order, rest, s.filled, price, s.nextOrderId);
    hide Money, EquityIsBooked, OpenOrders, IssuedFills, FillOrder, AdjustedPrice, Keep;
    KeepIsOpen(s.pending, others, rest, s.filled + [Fill(order, price)], s.nextOrderId);
  }

  lemma {:induction false} FillAllKeepsSound(s: State, config: Config, orders: seq<Order>, price: real,
          rest: seq<Order>)
    requires Sound(s, config, orders + rest)
    ensures Sound(FillAll(s, config, orders, price), config, rest)
    ensures Funded(s, config, orders + rest) ==> Funded(FillAll(s, config, orders, price), config, rest)
  {
    hide Sound, FillOrder;
    if orders == [] {
      assert orders + rest == rest;
    } else {
      var m := |orders| - 1;
      assert orders + rest == orders[..m] + ([orders[m]] + rest);
      FillAllKeepsSound(s, config, orders[..m], price, [orders[m]] + rest);
      FillKeepsSound(FillAll(s, config, orders[..m], price), config, orders[m], price, rest);
    }
  }

  lemma SiblingsKeepSound(s: State, config: Config, o: Order, hand: seq<Order>)
    requires Sound(s, config, hand)
    ensures Sound(CancelSiblings(s, o), config, hand)
    ensures Funded(s, config, hand) ==> Funded(CancelSiblings(s, o), config, hand)
  {
    hide Sound, CancelGroup;
    if o.ocaGroup.Some? {
      CancelKeepsSound(s, config, o.ocaGroup.value, hand);
    }
  }

  lemma {:induction false} FillHitsKeepsSound(s: State, config: Config, orders: seq<Order>, rest: seq<Order>)
    requires Sound(s, config, orders + rest)
    ensures Sound(FillHits(s, config, orders), config, rest)
    ensures Funded(s, config, orders + rest) ==> Funded(FillHits(s, config, orders), config, rest)
  {
    hide Sound, FillOrder, CancelSiblings;
    if orders == [] {
      assert orders + rest == rest;
    } else {
      var m := |orders| - 1;
      var o := orders[m];
      assert orders + rest == orders[..m] + ([o] + rest);
      FillHitsKeepsSound(s, config, orders[..m], [o] + rest);
      var before := FillHits(s, config, orders[..m]);
      FillKeepsSound(before, config, o, TriggerPrice(o), rest);
      SiblingsKeepSound(FillOrder(before, config, o, TriggerPrice(o)), config, o, rest);
    }
  }

  /** Replacing an order in hand by a pending one with a new id. */
  lemma PushKeepsOpen(open: seq<Order>, hand: seq<Order>, o: Order, filled: seq<Fill>, next: OrderId)
    requires OpenOrders(open + hand, filled, next) && IssuedFills(filled, next) && o.id == next + 1
    ensures OpenOrders(open + [o] + hand, filled, next + 1) && IssuedFills(filled, next + 1)
  {
    DistinctConcat(open, hand);
    DistinctConcat(open, [o]);
    DistinctConcat(open + [o], hand);
    forall x | x in open + [o] + hand
      ensures OrderOk(x, filled, next + 1)
    {
      assert x == o || (x in open + hand && OrderOk(x, filled, next));
    }
    assert forall x :: x in open + hand ==> OrderOk(x, filled, next);
    assert forall x :: x in open ==> x in open + hand;
    assert forall x :: x in hand ==> x in open + hand;
  }

  lemma PushKeepsSound(s: State, config: Config, o: Order, hand: seq<Order>)
    requires Sound(s, config, hand) && o.id == s.nextOrderId + 1
    ensures Sound(Push(s, o), config, hand)
    ensures Funded(s, config, hand) && o.quantity > 0.0 ==> Funded(Push(s, o), config, hand)
  {
    PushKeepsOpen(s.pending, hand, o, s.filled, s.nextOrderId);
    hide OpenOrders, IssuedFills, Balanced, Replay, TotalFees, TotalPnl;
  }

  /** An order in hand may be dropped. */
  lemma DropFromHand(s: State, config: Config, o: Order, rest: seq<Order>)
    requires Sound(s, config, [o] + rest)
    ensures Sound(s, config, rest)
    ensures Funded(s, config, [o] + rest) ==> Funded(s, config, rest) && o.quantity > 0.0
  {
    assert o in s.pending + ([o] + rest) && OrderOk(o, s.filled, s.nextOrderId);
    DistinctConcat(s.pending, [o] + rest);
    DistinctConcat([o], rest);
    DistinctConcat(s.pending, rest);
    hide DistinctIds, OrderOk, Money;
    ChosenAreOpen(s.pending + ([o] + rest), s.pending + rest, s.filled, s.nextOrderId);
  }

  lemma TriggerKeepsSound(s: State, config: Config, o: Order, b: Bar, rest: seq<Order>)
    requires Sound(s, config, [o] + rest)
    ensures Sound(TriggerOne(s, config, o, b), config, rest)
    ensures Funded(s, config, [o] + rest) ==> Funded(TriggerOne(s, config, o, b), config, rest)
  {
    hide Sound, FillOrder, CancelSiblings, LimitHit;
    if LimitHit(o, b) {
      var price := o.limitPrice.GetOr(o.price);
      FillKeepsSound(s, config, o, price, rest);
      SiblingsKeepSound(FillOrder(s, config, o, price), config, o, rest);
    } else {
      DropFromHand(s, config, o, rest);
      PushKeepsSound(s, config, Converted(o, s.nextOrderId + 1), rest);
    }
  }

  lemma {:induction false} TriggerAllKeepsSound(s: State, config: Config, orders: seq<Order>, b: Bar, rest: seq<Order>)
    requires Sound(s, config, orders + rest)
    ensures Sound(TriggerAll(s, config, orders, b), config, rest)
    ensures Funded(s, config, orders + rest) ==> Funded(TriggerAll(s, config, orders, b), config, rest)
  {
    hide Sound, TriggerOne;
    if orders == [] {
      assert orders + rest == rest;
    } else {
      var m := |orders| - 1;
      assert orders + rest == orders[..m] + ([orders[m]] + rest);
      TriggerAllKeepsSound(s, config, orders[..m], b, [orders[m]] + rest);
      TriggerKeepsSound(TriggerAll(s, config, orders[..m], b), config, orders[m], b, rest);
    }
  }

  /** Sorting the pending orders into two piles. */
  lemma SplitKeepsOpen(orders: seq<Order>, p: Order -> bool, q: Order -> bool, filled: seq<Fill>, next: OrderId)
    requires OpenOrders(orders, filled, next) && forall o :: !(p(o) && q(o))
    ensures OpenOrders(Keep(orders, p) + Keep(orders, q), filled, next)
  {
    KeepMeaning(orders, p);
    KeepMeaning(orders, q);
    DistinctConcat(Keep(orders, p), Keep(orders, q));
    forall x, y | x in Keep(orders, p) && y in Keep(orders, q)
      ensures x.id != y.id
    {
      if x.id == y.id {
        SameId(orders, x, y);
      }
    }
    hide Keep, OrderOk;
    ChosenAreOpen(orders, Keep(orders, p) + Keep(orders, q), filled, next);
  }

  lemma SplitInThree(orders: seq<Order>, p: Order -> bool, q: Order -> bool, r: Order -> bool, filled: seq<Fill>,
          next: OrderId)
    requires OpenOrders(orders, filled, next) && forall o :: !(p(o) && q(o)) && !(p(o) && r(o)) && !(q(o) && r(o))
    ensures OpenOrders(Keep(orders, r) + (Keep(orders, p) + Keep(orders, q)), filled, next)
  {
    var a, b, c := Keep(orders, p), Keep(orders, q), Keep(orders, r);
    SplitKeepsOpen(orders, p, q, filled, next);
    SplitKeepsOpen(orders, r, p, filled, next);
    SplitKeepsOpen(orders, r, q, filled, next);
    KeepMeaning(orders, p);
    KeepMeaning(orders, q);
    KeepMeaning(orders, r);
    hide Keep, OrderOk, DistinctIds;
    DistinctConcat(c, a);
    DistinctConcat(c, b);
    DistinctConcat(c, a + b);
    ChosenAreOpen(orders, c + (a + b), filled, next);
  }

  lemma MarketKeepsSound(s: State, config: Config, b: Bar)
    requires Sound(s, config, [])
    ensures Sound(FillMarketOrders(s, config, b), config, [])
    ensures Funded(s, config, []) ==> Funded(FillMarketOrders(s, config, b), config, [])
  {
    var isMarket, isNot := (o: Order) => o.kind == Market, (o: Order) => o.kind != Market;
    assert s.pending + [] == s.pending;
    SplitKeepsOpen(s.pending, isNot, isMarket, s.filled, s.nextOrderId);
    KeepIsPositive(s.pending, isNot);
    KeepIsPositive(s.pending, isMarket);
    var market := Keep(s.pending, isMarket);
    var rest := s.(pending := Keep(s.pending, isNot));
    assert market + [] == market;
    hide OpenOrders, IssuedFills, PositiveOrders, Balanced, Keep, FillAll, Replay, TotalFees, TotalPnl, MarketFillPrice;
    FillAllKeepsSound(rest, config, market, MarketFillPrice(config, b), []);
  }

  /** Sorting the pending orders keeps what holds of them. */
  lemma SortingKeepsSound(s: State, config: Config, p: Order -> bool, q: Order -> bool, r: Order -> bool)
    requires Sound(s, config, []) && forall o :: !(p(o) && q(o)) && !(p(o) && r(o)) && !(q(o) && r(o))
    ensures var rest, hand := s.(pending := Keep(s.pending, r)), Keep(s.pending, p) + Keep(s.pending, q);
      Sound(rest, config, hand) && (Funded(s, config, []) ==> Funded(rest, config, hand))
  {
    assert s.pending + [] == s.pending;
    SplitInThree(s.pending, p, q, r, s.filled, s.nextOrderId);
    KeepIsPositive(s.pending, p);
    KeepIsPositive(s.pending, q);
    KeepIsPositive(s.pending, r);
    hide OpenOrders, IssuedFills, Keep, Balanced, Replay, TotalFees, TotalPnl;
  }

  lemma ProcessKeepsSound(s: State, config: Config, b: Bar)
    requires Sound(s, config, [])
    ensures Sound(ProcessPending(s, config, b), config, [])
    ensures Funded(s, config, []) ==> Funded(ProcessPending(s, config, b), config, [])
  {
    hide Sound, Funded, Keep, FillHits, TriggerAll;
    var hit, triggered := (o: Order) => Hit(o, b), (o: Order) => Triggered(o, b);
    var neither := (o: Order) => !Hit(o, b) && !Triggered(o, b);
    SortingKeepsSound(s, config, hit, triggered, neither);
    hide Hit, Triggered;
    var hits, triggers := Keep(s.pending, hit), Keep(s.pending, triggered);
    var rest := s.(pending := Keep(s.pending, neither));
    assert triggers + [] == triggers;
    FillHitsKeepsSound(rest, config, hits, triggers);
    TriggerAllKeepsSound(FillHits(rest, config, hits), config, triggers, b, []);
  }

  lemma {:induction false} TrailKeepsOrders(orders: seq<Order>, stops: Stops, t: Tick)
    ensures forall i :: 0 <= i < |orders| ==>
      UpdateAll(orders, stops, t).0[i].id == orders[i].id
        && UpdateAll(orders, stops, t).0[i].quantity == orders[i].quantity
  {
    if orders != [] {
      TrailKeepsOrders(orders[..|orders| - 1], stops, t);
    }
    hide Activated, Extended, InitialState, Lookup, Store;
  }

  lemma TrailKeepsSound(s: State, config: Config, b: Bar)
    requires Sound(s, config, [])
    ensures Sound(Trail(s, b), config, [])
    ensures Funded(s, config, []) ==> Funded(Trail(s, b), config, [])
  {
    TrailKeepsOrders(s.pending, s.stops, Tick(s.position.direction, s.position.avgPrice, b.high, b.low, b.close));
    var pending := Trail(s, b).pending;
    assert pending + [] == pending && s.pending + [] == s.pending;
    forall o | o in pending
      ensures OrderOk(o, s.filled, s.nextOrderId)
    {
      var i :| 0 <= i < |pending| && pending[i] == o;
      assert s.pending[i] in s.pending && OrderOk(s.pending[i], s.filled, s.nextOrderId);
    }
    hide UpdateAll, Balanced, Replay, TotalFees, TotalPnl, OrderOk, IssuedFills;
  }

  lemma MarkKeepsSound(s: State, config: Config, price: real)
    requires Sound(s, config, [])
    ensures Sound(MarkToMarket(s, price), config, [])
    ensures Funded(s, config, []) ==> Funded(MarkToMarket(s, price), config, [])
  {
    hide OpenOrders, IssuedFills, Replay, TotalFees, TotalPnl, OpenProfit, Times;
  }

  lemma ClosingKeepsSound(s: State, config: Config, name: string)
    requires Sound(s, config, [])
    ensures Sound(Closing(s, name), config, [])
    ensures Funded(s, config, []) ==> Funded(Closing(s, name), config, [])
  {
    if s.position.direction != Flat && s.position.quantity != 0.0 {
      PushKeepsSound(s, config,
        Order(s.nextOrderId + 1, if s.position.direction == Long then Sell else Buy, Market, s.position.quantity,
                                      s.currentPrice, None, None, name, None, None, None, ""), []);
      hide OpenOrders, IssuedFills, Replay, TotalFees, TotalPnl, Times;
    }
  }

  lemma BarKeepsSound(s: State, config: Config, b: Bar)
    requires Sound(s, config, [])
    ensures Sound(AfterBar(s, config, b), config, [])
    ensures Funded(s, config, []) ==> Funded(AfterBar(s, config, b), config, [])
  {
    var priced := s.(currentPrice := b.close);
    assert Sound(priced, config, []) by {
      hide OpenOrders, IssuedFills, Balanced;
    }
    hide Sound, FillMarketOrders, Trail, ProcessPending, MarkToMarket, Closing;
    MarketKeepsSound(priced, config, b);
    TrailKeepsSound(FillMarketOrders(priced, config, b), config, b);
    ProcessKeepsSound(Trail(FillMarketOrders(priced, config, b), b), config, b);
    var marked := MarkToMarket(ProcessPending(Trail(FillMarketOrders(priced, config, b), b), config, b), b.close);
    MarkKeepsSound(ProcessPending(Trail(FillMarketOrders(priced, config, b), b), config, b), config, b.close);
    ClosingKeepsSound(marked, config, "liquidation");
  }

  /** The quantities an operation trades are positive. */
  predicate Usable(s: State, config: Config, op: Op) {
    match op
    case Entry(r) => QuantityOf(s, config, r) > 0.0
    case PlaceOrder(r) => QuantityOf(s, config, r) > 0.0
    case Exit(r) => r.quantity.Some? ==> r.quantity.value > 0.0
    case _ => true
  }

  lemma RequestKeepsSound(s: State, config: Config, r: Request)
    requires Sound(s, config, [])
    ensures Sound(AfterEntry(s, config, r), config, []) && Sound(AfterOrder(s, config, r), config, [])
    ensures Funded(s, config, []) && QuantityOf(s, config, r) > 0.0 ==>
      Funded(AfterEntry(s, config, r), config, []) && Funded(AfterOrder(s, config, r), config, [])
  {
    PushKeepsSound(s, config, Requested(s, config, r), []);
    var closing := Closing(s, NameOr(s.position.entryName, r.name));
    ClosingKeepsSound(s, config, NameOr(s.position.entryName, r.name));
    PushKeepsSound(closing, config, Requested(s, config, r).(id := closing.nextOrderId + 1), []);
    hide OpenOrders, IssuedFills, Balanced, Replay, TotalFees, TotalPnl, CanOpen, QuantityOf, Closing;
  }

  /** What an exit trades is positive. */
  lemma ExitIsPositive(s: State, config: Config, r: ExitRequest)
    requires Funded(s, config, []) && (r.quantity.Some? ==> r.quantity.value > 0.0)
    ensures ExitTarget(s, r).Some? ==> ExitTarget(s, r).value.1 > 0.0
  {
    var entry := FirstMarket(s.pending);
    if entry.Some? {
      assert entry.value in s.pending;
    }
    hide Replay, TotalFees, TotalPnl, Times;
  }

  /** A pushed order may be taken in hand at once. */
  lemma PushedInHand(s: State, config: Config, o: Order)
    requires Sound(Push(s, o), config, [])
    ensures Sound(s.(nextOrderId := o.id), config, [o] + [])
    ensures Funded(Push(s, o), config, []) ==> Funded(s.(nextOrderId := o.id), config, [o] + [])
  {
    assert Push(s, o).pending + [] == s.pending + ([o] + []);
    assert o in Push(s, o).pending && forall x :: x in s.pending ==> x in Push(s, o).pending;
    hide OpenOrders, IssuedFills, Balanced, Replay, TotalFees, TotalPnl;
  }

  lemma ExitKeepsSound(s: State, config: Config, r: ExitRequest)
    requires Sound(s, config, [])
    ensures Sound(AfterExit(s, config, r), config, [])
    ensures Funded(s, config, []) && (r.quantity.Some? ==> r.quantity.value > 0.0) ==>
      Funded(AfterExit(s, config, r), config, [])
  {
    hide Sound, Funded, ExitTarget, ExitKind, PriceOf, FillOrder;
    var target := ExitTarget(s, r);
    if Funded(s, config, []) && (r.quantity.Some? ==> r.quantity.value > 0.0) {
      ExitIsPositive(s, config, r);
    }
    if target.Some? {
      var order := ExitOrder(s, r, target.value.0, target.value.1);
      PushKeepsSound(s, config, order, []);
      if order.kind == Market {
        PushedInHand(s, config, order);
        FillKeepsSound(s.(nextOrderId := order.id), config, order, order.price, []);
      }
    }
  }

  lemma CancelOneKeepsSound(s: State, config: Config, id: OrderId)
    requires Sound(s, config, [])
    ensures Sound(AfterCancel(s, id), config, [])
    ensures Funded(s, config, []) ==> Funded(AfterCancel(s, id), config, [])
  {
    var i := FindOrder(s.pending, id);
    if i.Some? {
      var rest := s.pending[..i.value] + s.pending[i.value + 1..];
      assert s.pending + [] == s.pending && rest + [] == rest;
      assert forall o :: o in rest ==> o in s.pending;
      assert forall k :: 0 <= k < |rest| ==> rest[k] == s.pending[if k < i.value then k else k + 1];
      ChosenAreOpen(s.pending, rest, s.filled, s.nextOrderId);
      hide OpenOrders, IssuedFills, Balanced, FindOrder;
    }
  }

  lemma NextKeepsSound(s: State, config: Config, op: Op)
    requires Sound(s, config, [])
    ensures Sound(Next(s, config, op), config, [])
    ensures Funded(s, config, []) && Usable(s, config, op) ==> Funded(Next(s, config, op), config, [])
  {
    match op
    case Entry(r) => RequestKeepsSound(s, config, r);
    case PlaceOrder(r) => RequestKeepsSound(s, config, r);
    case Exit(r) => ExitKeepsSound(s, config, r);
    case Close(name) => ClosingKeepsSound(s, config, name);
    case Cancel(id) => CancelOneKeepsSound(s, config, id);
    case CancelAll => ChosenAreOpen(s.pending + [], [], s.filled, s.nextOrderId);
    case UpdateBar(b) => BarKeepsSound(s, config, b);
    case Restore(_) =>
    hide Balanced, IssuedFills, OrderOk, AfterEntry, AfterOrder, AfterExit, Closing, AfterCancel, AfterBar;
  }

  predicate AllUsable(config: Config, ops: seq<Op>) {
    ops != [] ==>
      var front := ops[..|ops| - 1];
      AllUsable(config, front) && Usable(Run(config, front), config, ops[|ops| - 1])
  }

  lemma FreshIsSound(config: Config)
    ensures Sound(Fresh(config), config, []) && Funded(Fresh(config), config, [])
  {
    TimesFacts(0.0, 0.0);
  }

  // ----- Going back to a saved state -----

  /** Filling leaves the order counter; only new orders advance it. */
  lemma {:induction false} FillsKeepCounter(s: State, config: Config, orders: seq<Order>, price: real)
    ensures FillAll(s, config, orders, price).nextOrderId == s.nextOrderId
    ensures FillHits(s, config, orders).nextOrderId == s.nextOrderId
  {
    if orders != [] {
      var m := |orders| - 1;
      FillsKeepCounter(s, config, orders[..m], price);
      FillEffect(FillAll(s, config, orders[..m], price), config, orders[m], price);
      FillEffect(FillHits(s, config, orders[..m]), config, orders[m], TriggerPrice(orders[m]));
    }
    hide FillOrder, Keep;
  }

  lemma {:induction false} TriggersKeepCounter(s: State, config: Config, orders: seq<Order>, b: Bar)
    ensures TriggerAll(s, config, orders, b).nextOrderId >= s.nextOrderId
  {
    if orders != [] {
      var m := |orders| - 1;
      var o := orders[m];
      TriggersKeepCounter(s, config, orders[..m], b);
      FillEffect(TriggerAll(s, config, orders[..m], b), config, o, o.limitPrice.GetOr(o.price));
    }
    hide FillOrder, Keep, LimitHit;
  }

  lemma BarKeepsCounter(s: State, config: Config, b: Bar)
    ensures AfterBar(s, config, b).nextOrderId >= s.nextOrderId
  {
    var isMarket, isNot := (o: Order) => o.kind == Market, (o: Order) => o.kind != Market;
    var priced := s.(currentPrice := b.close);
    FillsKeepCounter(priced.(pending := Keep(s.pending, isNot)), config, Keep(s.pending, isMarket),
      MarketFillPrice(config, b));
    var trailed := Trail(FillMarketOrders(priced, config, b), b);
    var rest := trailed.(pending := Keep(trailed.pending, (o: Order) => !Hit(o, b) && !Triggered(o, b)));
    var hits, triggers := Keep(trailed.pending, (o: Order) => Hit(o, b)),
      Keep(trailed.pending, (o: Order) => Triggered(o, b));
    FillsKeepCounter(rest, config, hits, 0.0);
    TriggersKeepCounter(FillHits(rest, config, hits), config, triggers, b);
    hide FillAll, FillHits, TriggerAll, Keep, OpenProfit, Hit, Triggered, UpdateAll, MarketFillPrice;
  }

  lemma NextKeepsCounter(s: State, config: Config, op: Op)
    ensures Next(s, config, op).nextOrderId >= s.nextOrderId
  {
    if op.UpdateBar? {
      BarKeepsCounter(s, config, op.bar);
    } else if op.Exit? && ExitTarget(s, op.exit).Some? {
      var target := ExitTarget(s, op.exit).value;
      var order := ExitOrder(s, op.exit, target.0, target.1);
      FillEffect(s.(nextOrderId := order.id), config, order, order.price);
    }
    hide AfterBar, FillOrder, ExitTarget, CanOpen, QuantityOf, FindOrder;
  }

  lemma {:induction false} CounterGrows(config: Config, ops: seq<Op>, k: nat)
    requires k <= |ops|
    ensures Run(config, ops[..k]).nextOrderId <= Run(config, ops).nextOrderId
  {
    if k == |ops| {
      assert ops[..k] == ops;
    } else {
      var m := |ops| - 1;
      assert ops[..m][..k] == ops[..k];
      CounterGrows(config, ops[..m], k);
      NextKeepsCounter(Run(config, ops[..m]), config, ops[m]);
    }
    hide Next;
  }

  lemma RestoredIsSound(s: State, saved: State, config: Config)
    requires Sound(saved, config, []) && saved.nextOrderId <= s.nextOrderId
    ensures Sound(Restored(s, saved), config, [])
    ensures Funded(saved, config, []) ==> Funded(Restored(s, saved), config, [])
  {
    assert saved.pending + [] == saved.pending;
    forall o | o in saved.pending
      ensures OrderOk(o, saved.filled, s.nextOrderId)
    {
      assert OrderOk(o, saved.filled, saved.nextOrderId);
    }
    hide Balanced, Replay, TotalFees, TotalPnl, OrderOk;
  }

  lemma {:induction false} PrefixUsable(config: Config, ops: seq<Op>, k: nat)
    requires AllUsable(config, ops) && k <= |ops|
    ensures AllUsable(config, ops[..k])
  {
    if k == |ops| {
      assert ops[..k] == ops;
    } else {
      assert ops[..|ops| - 1][..k] == ops[..k];
      PrefixUsable(config, ops[..|ops| - 1], k);
    }
    hide Usable, Run;
  }

  lemma {:induction false} RunIsSound(config: Config, ops: seq<Op>)
    ensures Sound(Run(config, ops), config, [])
    ensures AllUsable(config, ops) ==> Funded(Run(config, ops), config, [])
    decreases |ops|
  {
    if ops == [] {
      FreshIsSound(config);
    } else {
      var m := |ops| - 1;
      RunIsSound(config, ops[..m]);
      if ops[m].Restore? {
        var k := ops[m].to;
        if k <= m {
          assert ops[..m][..k] == ops[..k];
          if AllUsable(config, ops) {
            PrefixUsable(config, ops[..m], k);
          }
          RunIsSound(config, ops[..k]);
          CounterGrows(config, ops[..m], k);
          RestoredIsSound(Run(config, ops[..m]), Run(config, ops[..k]), config);
        }
      } else {
        NextKeepsSound(Run(config, ops[..m]), config, ops[m]);
      }
    }
    hide Sound, Funded, Next, Usable, Restored;
  }

  lemma RunMore(config: Config, ops: seq<Op>, op: Op)
    requires !op.Restore?
    ensures Run(config, ops + [op]) == Next(Run(config, ops), config, op)
  {
    assert (ops + [op])[..|ops + [op]| - 1] == ops;
    hide Next;
  }

  /** No order is filled twice, and none is both pending and filled, whatever was asked for. */
  lemma NoOrderIsFilledTwice(config: Config, ops: seq<Op>)
    ensures var s := Run(config, ops);
      && (forall i, j :: 0 <= i < j < |s.filled| ==> s.filled[i].order.id != s.filled[j].order.id)
      && (forall i, k :: 0 <= i < |s.pending| && 0 <= k < |s.filled| ==> s.pending[i].id != s.filled[k].order.id)
      && DistinctIds(s.pending)
  {
    RunIsSound(config, ops);
    var s := Run(config, ops);
    assert s.pending + [] == s.pending;
    forall i, k | 0 <= i < |s.pending| && 0 <= k < |s.filled|
      ensures s.pending[i].id != s.filled[k].order.id
    {
      assert s.pending[i] in s.pending && OrderOk(s.pending[i], s.filled, s.nextOrderId);
    }
    hide Run, AllUsable, Funded, EquityIsBooked;
  }

  /** Equity moves by the profits of trades and by what fills are charged, whatever was asked for. */
  lemma EquityIsAlwaysBooked(config: Config, ops: seq<Op>)
    ensures EquityIsBooked(Run(config, ops), config)
  {
    RunIsSound(config, ops);
    hide Run, AllUsable, Funded, EquityIsBooked, OpenOrders, IssuedFills;
  }

  /** The lots always account for the position. */
  lemma LotsAlwaysAccount(config: Config, ops: seq<Op>)
    requires AllUsable(config, ops)
    ensures Accounted(Run(config, ops).position)
  {
    RunIsSound(config, ops);
    hide Run, AllUsable, Accounted, Sound, PositiveOrders;
  }

  /** Whatever the lots account for, a fill that opens or adds keeps it so exactly when its quantity is positive. */
  lemma FillNeedsPositiveQuantity(s: State, config: Config, order: Order, fillPrice: real)
    requires Accounted(s.position) && Adds(s.position, order.action)
    ensures Accounted(FillOrder(s, config, order, fillPrice).position) <==> order.quantity > 0.0
  {
    var price := AdjustedPrice(config, order.action, fillPrice);
    OpenOrAddAccounted(s.position, SideOf(order.action), order.quantity, price, order.entryName);
    hide Accounted, AdjustedPrice, FillCharge, OpenOrAdd;
  }

  /** Average-cost accounting against the cash book of the same fills, at any price. */
  predicate LedgerAgrees(s: State, config: Config, price: real) {
    var book := Replay(s.filled);
    s.equity + OpenProfit(s.position, price)
      == config.initialCapital + book.cash + Times(price, book.position) - TotalFees(s.trades) - s.charged
  }

  /** Profit at a price is the change of value since the average price. */
  lemma OpenProfitIsSpread(p: Position, price: real)
    requires Accounted(p)
    ensures OpenProfit(p, price) == Times(price, Signed(p)) - Times(p.avgPrice, Signed(p))
  {
  }

  lemma MoneyMeansLedger(s: State, config: Config, price: real)
    requires Money(s, config)
    ensures LedgerAgrees(s, config, price)
  {
    OpenProfitIsSpread(s.position, price);
    hide Times, Replay, TotalFees, TotalPnl, OpenProfit, Accounted;
  }

  /**
   * In every reachable state and at every price, realized equity plus open profit is the initial capital plus the
   * cash of the fills plus the signed position at that price, less the fees of the closed trades and what fills were
   * charged.
   */
  lemma LedgerIdentity(config: Config, ops: seq<Op>, price: real)
    requires AllUsable(config, ops)
    ensures LedgerAgrees(Run(config, ops), config, price)
  {
    RunIsSound(config, ops);
    hide Run, AllUsable, Money, LedgerAgrees, Sound, PositiveOrders;
    MoneyMeansLedger(Run(config, ops), config, price);
  }

  /** After a bar the reported equity is the ledger's value at the close. */
  lemma BarEquityIsTheLedgers(config: Config, ops: seq<Op>, b: Bar)
    requires AllUsable(config, ops + [UpdateBar(b)])
    ensures var s := Run(config, ops + [UpdateBar(b)]); var book := Replay(s.filled);
      GetEquity(s) == config.initialCapital + book.cash + Times(b.close, book.position) - TotalFees(s.trades)
        - s.charged
  {
    LedgerIdentity(config, ops + [UpdateBar(b)], b.close);
    RunMore(config, ops, UpdateBar(b));
    BarMarks(Run(config, ops), config, b);
    hide Run, AfterBar, AllUsable, Replay, TotalFees, TotalPnl, OpenProfit, Times;
  }

  lemma BarMarks(s: State, config: Config, b: Bar)
    ensures var after := AfterBar(s, config, b); GetEquity(after) == after.equity + OpenProfit(after.position, b.close)
  {
    hide FillMarketOrders, Trail, ProcessPending, Times;
  }

  // ----- Which configurations charge what -----

  /** Closing fills are charged nothing on top of their trade. */
  predicate ChargesOnlyOpenings(config: Config) {
    config.moduleFees || config.commission == 0.0 || config.commissionType == Fixed || config.commissionType == PerOrder
  }

  lemma ClosingCharge(config: Config, quantity: real, price: real)
    requires quantity > 0.0 && price > 0.0
    ensures FillCharge(config, false, quantity, price) == 0.0 <==> ChargesOnlyOpenings(config)
  {
    NonzeroProduct(config.commission, quantity);
    NonzeroProduct(price, quantity);
    NonzeroProduct(price * quantity, config.commission / 100.0);
  }

  lemma NonzeroProduct(a: real, b: real)
    ensures a * b == 0.0 <==> a == 0.0 || b == 0.0
  {
  }

  /**
   * A closing fill moves equity by its trade's profit exactly under a commission method, without a commission, or with
   * a flat one; otherwise the charge that is already in the trade is taken once more.
   */
  lemma LegacyExitIsChargedTwice(s: State, config: Config, order: Order, fillPrice: real)
    requires !Adds(s.position, order.action) && order.quantity > 0.0 && fillPrice > 0.0
    ensures var after := FillOrder(s, config, order, fillPrice);
      var charge := FillCharge(config, false, order.quantity, fillPrice);
      && |after.trades| == |s.trades| + 1
      && after.equity == s.equity + after.trades[|s.trades|].pnl - charge
      && (!config.moduleFees ==> after.trades[|s.trades|].commission == charge)
      && (after.equity == s.equity + after.trades[|s.trades|].pnl <==> ChargesOnlyOpenings(config))
  {
    ClosingCharge(config, order.quantity, fillPrice);
    hide Profit, FillCharge, AdjustedPrice, Min, Keep, Reduced, ChargesOnlyOpenings;
  }

  lemma KeepOne(o: Order, p: Order -> bool)
    ensures Keep([o], p) == if p(o) then [o] else []
  {
    assert [o][..0] == [] && Keep([], p) == [];
  }

  lemma OneMarketFill(s: State, config: Config, o: Order, b: Bar)
    requires s.pending == [o] && o.kind == Market
    ensures FillMarketOrders(s, config, b) == FillOrder(s.(pending := []), config, o, MarketFillPrice(config, b))
  {
    KeepOne(o, (x: Order) => x.kind == Market);
    KeepOne(o, (x: Order) => x.kind != Market);
    hide Keep, FillOrder, MarketFillPrice;
    var bare := s.(pending := []);
    assert [o][..0] == [] && FillAll(bare, config, [], MarketFillPrice(config, b)) == bare;
  }

  /** A bar on which only one market order is pending. */
  lemma BarFillsOne(s: State, config: Config, o: Order, b: Bar)
    requires s.pending == [o] && o.kind == Market
    ensures AfterBar(s, config, b)
      == CheckLiquidation(MarkToMarket(FillOrder(s.(pending := [], currentPrice := b.close), config, o,
        MarketFillPrice(config, b)), b.close), config)
  {
    hide FillMarketOrders, FillOrder, MarketFillPrice, Trail, ProcessPending, MarkToMarket, CheckLiquidation,
      AdjustedPrice, Keep;
    var bare := s.(pending := [], currentPrice := b.close);
    var filled := FillOrder(bare, config, o, MarketFillPrice(config, b));
    OneMarketFill(s.(currentPrice := b.close), config, o, b);
    FillEffect(bare, config, o, MarketFillPrice(config, b));
    KeepNone((x: Order) => x.ocaGroup != Some(OcaGroup(s.position.entryName)));
    NothingPending(filled, config, b);
  }

  lemma KeepNone(p: Order -> bool)
    ensures Keep([], p) == []
  {
  }

  lemma NothingPending(s: State, config: Config, b: Bar)
    requires s.pending == []
    ensures ProcessPending(Trail(s, b), config, b) == s
  {
  }

  /** A bar on which nothing is pending. */
  lemma QuietBar(s: State, config: Config, b: Bar)
    requires s.pending == []
    ensures AfterBar(s, config, b) == CheckLiquidation(MarkToMarket(s.(currentPrice := b.close), b.close), config)
  {
    NothingPending(s.(currentPrice := b.close), config, b);
    hide Trail, ProcessPending, MarkToMarket, CheckLiquidation, MarketFillPrice;
  }

  /** A bar on which the price stands still. */
  function At(price: real): Bar {
    Bar(price, price, price, price)
  }

  /** A request to buy, or to sell, one unit at market. */
  function OneUnit(side: Side): Op {
    PlaceOrder(Request("", side, Some(1.0), 1.0, None, None))
  }

  function OneUnitOrder(id: OrderId, action: Action): Order {
    Order(id, action, Market, 1.0, 1.0, None, None, "", None, None, None, "")
  }

  /** What the peak and the drawdown become when a value is sampled. */
  predicate SampledFrom(s: State, later: State, value: real) {
    && later.peakEquity == UpdateDrawdown(s, value).peakEquity
    && later.maxDrawdown == UpdateDrawdown(s, value).maxDrawdown
  }

  lemma PriceStandsStill(config: Config, price: real)
    ensures MarketFillPrice(config, At(price)) == price
  {
  }

  /** The position holds the unit that was bought at a price. */
  predicate HoldsUnit(s: State, avgPrice: real) {
    && s.position.direction == Long && s.position.quantity == 1.0 && s.position.avgPrice == avgPrice
    && s.position.entryName == ""
  }

  /** Buying one unit while flat. */
  lemma UnitBought(s: State, config: Config, id: OrderId, price: real)
    requires s.position == NoPosition && s.pending == [OneUnitOrder(id, Buy)]
    ensures var after := AfterBar(s, config, At(price)); var slip := Slippage(config, price);
      var equity := s.equity - FillCharge(config, true, 1.0, price);
      && HoldsUnit(after, price + slip) && after.trades == s.trades
      && after.equity == equity && GetEquity(after) == equity - slip && SampledFrom(s, after, equity - slip)
  {
    BarFillsOne(s, config, OneUnitOrder(id, Buy), At(price));
    PriceStandsStill(config, price);
    hide AfterBar, FillCharge, Slippage, MarketFillPrice, MarginRate;
  }

  /** Selling that unit. */
  lemma UnitSold(s: State, config: Config, id: OrderId, price: real)
    requires HoldsUnit(s, s.position.avgPrice) && s.pending == [OneUnitOrder(id, Sell)] && !config.moduleFees
    ensures var after := AfterBar(s, config, At(price)); var charge := FillCharge(config, false, 1.0, price);
      var pnl := price - Slippage(config, price) - s.position.avgPrice - charge;
      && after.position == NoPosition && GetEquity(after) == after.equity == s.equity + pnl - charge
      && |after.trades| == |s.trades| + 1 && after.trades[|s.trades|].pnl == pnl
      && SampledFrom(s, after, s.equity + pnl)
  {
    BarFillsOne(s, config, OneUnitOrder(id, Sell), At(price));
    PriceStandsStill(config, price);
    hide AfterBar, FillCharge, Slippage, MarketFillPrice, ReduceLots;
  }

  function Bought(price: real): seq<Op> {
    [OneUnit(Long)] + [UpdateBar(At(price))]
  }

  function Sold(price: real): seq<Op> {
    [CancelAll] + [OneUnit(Short)] + [UpdateBar(At(price))]
  }

  /** Buying one unit at one price, and selling it at another. */
  function RoundTrip(buy: real, sell: real): seq<Op> {
    Bought(buy) + Sold(sell)
  }

  /** One more operation of a usable run. */
  lemma UsableMore(config: Config, ops: seq<Op>, op: Op)
    requires AllUsable(config, ops) && Usable(Run(config, ops), config, op)
    ensures AllUsable(config, ops + [op])
  {
    assert (ops + [op])[..|ops + [op]| - 1] == ops;
    hide Run, Usable;
  }

  lemma PlacedOne(s: State, config: Config, side: Side)
    requires !config.moduleFees || side == Long
    ensures Usable(s, config, OneUnit(side))
    ensures Next(s, config, OneUnit(side))
      == Push(s, OneUnitOrder(s.nextOrderId + 1, if side == Long then Buy else Sell))
  {
    hide DefaultQuantity;
  }

  /** After a prefix that leaves a flat engine without orders, buying charges the opening fill. */
  lemma BuyingIsCharged(config: Config, ops: seq<Op>, price: real)
    requires AllUsable(config, ops) && Run(config, ops).position == NoPosition && Run(config, ops).pending == []
    ensures var s, after := Run(config, ops), Run(config, ops + Bought(price)); var slip := Slippage(config, price);
      var equity := s.equity - FillCharge(config, true, 1.0, price);
      && AllUsable(config, ops + Bought(price)) && HoldsUnit(after, price + slip) && after.trades == s.trades
      && after.equity == equity && GetEquity(after) == equity - slip && SampledFrom(s, after, equity - slip)
  {
    hide Run, AfterBar, FillCharge, Slippage, AllUsable, SampledFrom, GetEquity, HoldsUnit;
    var s := Run(config, ops);
    var bar := UpdateBar(At(price));
    PlacedOne(s, config, Long);
    RunMore(config, ops, OneUnit(Long));
    UsableMore(config, ops, OneUnit(Long));
    RunMore(config, ops + [OneUnit(Long)], bar);
    UsableMore(config, ops + [OneUnit(Long)], bar);
    assert ops + Bought(price) == ops + [OneUnit(Long)] + [bar];
    var placed := Push(s, OneUnitOrder(s.nextOrderId + 1, Buy));
    assert placed.pending == [OneUnitOrder(s.nextOrderId + 1, Buy)];
    UnitBought(placed, config, s.nextOrderId + 1, price);
    SamePeaks(s, placed, Run(config, ops + Bought(price)),
      s.equity - FillCharge(config, true, 1.0, price) - Slippage(config, price));
  }

  /** Selling the unit charges the closing fill twice. */
  lemma SellingIsCharged(config: Config, ops: seq<Op>, price: real)
    requires AllUsable(config, ops) && !config.moduleFees
    requires HoldsUnit(Run(config, ops), Run(config, ops).position.avgPrice)
    ensures var s, after := Run(config, ops), Run(config, ops + Sold(price));
      var charge := FillCharge(config, false, 1.0, price);
      var pnl := price - Slippage(config, price) - s.position.avgPrice - charge;
      && AllUsable(config, ops + Sold(price)) && after.position == NoPosition
      && GetEquity(after) == after.equity == s.equity + pnl - charge
      && |after.trades| == |s.trades| + 1 && after.trades[|s.trades|].pnl == pnl
      && SampledFrom(s, after, s.equity + pnl)
  {
    hide Run, AfterBar, FillCharge, Slippage, AllUsable, SampledFrom, GetEquity;
    var s := Run(config, ops);
    var cancelled := s.(pending := []);
    var bar := UpdateBar(At(price));
    RunMore(config, ops, CancelAll);
    UsableMore(config, ops, CancelAll);
    PlacedOne(cancelled, config, Short);
    RunMore(config, ops + [CancelAll], OneUnit(Short));
    UsableMore(config, ops + [CancelAll], OneUnit(Short));
    RunMore(config, ops + [CancelAll] + [OneUnit(Short)], bar);
    UsableMore(config, ops + [CancelAll] + [OneUnit(Short)], bar);
    assert ops + Sold(price) == ops + [CancelAll] + [OneUnit(Short)] + [bar];
    var placed := Push(cancelled, OneUnitOrder(cancelled.nextOrderId + 1, Sell));
    assert placed.pending == [OneUnitOrder(cancelled.nextOrderId + 1, Sell)];
    UnitSold(placed, config, cancelled.nextOrderId + 1, price);
    var charge := FillCharge(config, false, 1.0, price);
    SamePeaks(s, placed, Run(config, ops + Sold(price)),
      s.equity + (price - Slippage(config, price) - s.position.avgPrice - charge));
  }

  lemma SamePeaks(s: State, t: State, later: State, value: real)
    requires SampledFrom(t, later, value) && t.peakEquity == s.peakEquity && t.maxDrawdown == s.maxDrawdown
    ensures SampledFrom(s, later, value)
  {
  }

  predicate EquityIsPnl(config: Config, ops: seq<Op>) {
    Run(config, ops).equity == config.initialCapital + TotalPnl(Run(config, ops).trades)
  }

  lemma FirstBuyLosesTheCharge(config: Config)
    requires FillCharge(config, true, 1.0, 1.0) != 0.0
    ensures !EquityIsPnl(config, [] + Bought(1.0))
  {
    BuyingIsCharged(config, [], 1.0);
    hide Bought, FillCharge, SampledFrom;
  }

  /** Equity is the initial capital plus the trades' profits in every run exactly when fills are charged nothing. */
  lemma EquityIsPnlExactly(config: Config)
    ensures (forall ops: seq<Op> :: EquityIsPnl(config, ops)) <==> config.moduleFees || config.commission == 0.0
  {
    if config.moduleFees || config.commission == 0.0 {
      forall ops: seq<Op>
        ensures EquityIsPnl(config, ops)
      {
        EquityIsAlwaysBooked(config, ops);
        hide Run, TotalPnl;
      }
    } else {
      assert FillCharge(config, true, 1.0, 1.0) != 0.0;
      FirstBuyLosesTheCharge(config);
      hide EquityIsPnl;
    }
  }

  /** A round trip of one unit: what the engine reports before, between and after, and what it sampled. */
  lemma RoundTripIsCharged(config: Config, ops: seq<Op>, buy: real, sell: real)
    requires AllUsable(config, ops) && Run(config, ops).position == NoPosition && Run(config, ops).pending == []
    requires !config.moduleFees
    ensures var s, bought := Run(config, ops), Run(config, ops + Bought(buy));
      var sold := Run(config, ops + RoundTrip(buy, sell));
      var opening, closing := FillCharge(config, true, 1.0, buy), FillCharge(config, false, 1.0, sell);
      var pnl := sell - Slippage(config, sell) - (buy + Slippage(config, buy)) - closing;
      && AllUsable(config, ops + RoundTrip(buy, sell)) && sold.position == NoPosition
      && GetEquity(sold) == sold.equity == s.equity - opening + pnl - closing
      && |sold.trades| == |s.trades| + 1 && sold.trades[|s.trades|].pnl == pnl
      && SampledFrom(s, bought, s.equity - opening - Slippage(config, buy))
      && SampledFrom(bought, sold, s.equity - opening + pnl)
  {
    hide Run, FillCharge, Slippage, AllUsable, SampledFrom, GetEquity, Bought, Sold;
    BuyingIsCharged(config, ops, buy);
    SellingIsCharged(config, ops + Bought(buy), sell);
    assert ops + RoundTrip(buy, sell) == ops + Bought(buy) + Sold(sell);
  }

  // ----- Zero quantities -----

  /** A request to buy nothing at market. */
  function Nothing(): Op {
    PlaceOrder(Request("", Long, Some(0.0), 1.0, None, None))
  }

  function NothingOrder(id: OrderId): Order {
    Order(id, Buy, Market, 0.0, 1.0, None, None, "", None, None, None, "")
  }

  lemma NothingBought(s: State, config: Config, id: OrderId)
    requires s.position == NoPosition && s.pending == [NothingOrder(id)]
    ensures var after := AfterBar(s, config, At(1.0));
      && after.position.direction == Long && after.position.quantity == 0.0 && after.position.entryName == ""
      && after.pending == [] && after.trades == s.trades
      && after.filled == s.filled + [Fill(NothingOrder(id), 1.0 + Slippage(config, 1.0))]
  {
    BarFillsOne(s, config, NothingOrder(id), At(1.0));
    PriceStandsStill(config, 1.0);
    hide AfterBar, FillCharge, Slippage, MarketFillPrice, MarginRate, Times;
  }

  /** Selling a unit against it closes nothing and opens nothing. */
  lemma NothingSold(s: State, config: Config, id: OrderId)
    requires s.position.direction == Long && s.position.quantity == 0.0 && s.position.entryName == ""
    requires s.pending == [OneUnitOrder(id, Sell)] && !config.moduleFees
    ensures var after := AfterBar(s, config, At(1.0));
      && after.position == NoPosition
      && after.filled == s.filled + [Fill(OneUnitOrder(id, Sell), 1.0 - Slippage(config, 1.0))]
      && |after.trades| == |s.trades| + 1 && after.trades[..|s.trades|] == s.trades
      && after.trades[|s.trades|].pnl == -after.trades[|s.trades|].commission
  {
    BarFillsOne(s, config, OneUnitOrder(id, Sell), At(1.0));
    PriceStandsStill(config, 1.0);
    TimesFacts(0.0, 0.0);
    hide AfterBar, FillCharge, Slippage, MarketFillPrice, ReduceLots, MarginRate;
  }

  function ZeroRun(): seq<Op> {
    [Nothing()] + [UpdateBar(At(1.0))] + [OneUnit(Short)] + [UpdateBar(At(1.0))]
  }

  lemma ZeroRunEffect(config: Config)
    requires !config.moduleFees
    ensures var s := Run(config, ZeroRun()); var slip := Slippage(config, 1.0);
      && s.position == NoPosition
      && s.filled == [Fill(NothingOrder(1), 1.0 + slip), Fill(OneUnitOrder(2, Sell), 1.0 - slip)]
      && |s.trades| == 1 && s.trades[0].pnl == -s.trades[0].commission
  {
    hide Run, AfterBar, Slippage;
    EmptyRun(config);
    RunMore(config, [], Nothing());
    RunMore(config, [] + [Nothing()], UpdateBar(At(1.0)));
    assert [] + [Nothing()] == [Nothing()];
    var placed := Push(Fresh(config), NothingOrder(1));
    assert placed.pending == [NothingOrder(1)];
    NothingBought(placed, config, 1);
    var bought := AfterBar(placed, config, At(1.0));
    BarKeepsCounterOfOne(placed, config, NothingOrder(1), At(1.0));
    PlacedOne(bought, config, Short);
    RunMore(config, [Nothing()] + [UpdateBar(At(1.0))], OneUnit(Short));
    RunMore(config, [Nothing()] + [UpdateBar(At(1.0))] + [OneUnit(Short)], UpdateBar(At(1.0)));
    var selling := Push(bought, OneUnitOrder(2, Sell));
    assert selling.pending == [OneUnitOrder(2, Sell)];
    NothingSold(selling, config, 2);
  }

  /** A bar that fills a market order and leaves nothing to liquidate issues no order. */
  lemma BarKeepsCounterOfOne(s: State, config: Config, o: Order, b: Bar)
    requires s.pending == [o] && o.kind == Market && AfterBar(s, config, b).pending == []
    ensures AfterBar(s, config, b).nextOrderId == s.nextOrderId
  {
    BarFillsOne(s, config, o, b);
    FillEffect(s.(pending := [], currentPrice := b.close), config, o, MarketFillPrice(config, b));
    hide AfterBar, FillOrder, AdjustedPrice, MarketFillPrice, MarginRate;
  }

  /** The cash book of those two fills is short one unit. */
  lemma ZeroBook(buy: Fill, sell: Fill)
    requires buy.order.action == Buy && buy.order.quantity == 0.0
    requires sell.order.action == Sell && sell.order.quantity == 1.0
    ensures Replay([buy, sell]) == Book(-1.0, sell.fillPrice)
  {
    assert [buy, sell][..1] == [buy] && [buy][..0] == [];
    assert Replay([]) == Book(0.0, 0.0);
    assert Replay([buy]) == Book(0.0, 0.0);
  }

  lemma OneTrade(t: Trade)
    ensures TotalPnl([t]) == t.pnl && TotalFees([t]) == t.commission
  {
    assert [t][..0] == [] && TotalPnl([]) == 0.0 && TotalFees([]) == 0.0;
  }

  /** A request for nothing swallows the next order the other way: the ledger disagrees at every price but one. */
  lemma ZeroQuantityBreaksTheLedger(config: Config, price: real)
    requires !config.moduleFees
    ensures LedgerAgrees(Run(config, ZeroRun()), config, price) <==> price == 1.0 - Slippage(config, 1.0)
  {
    hide Run, ZeroRun, Slippage, Replay, TotalPnl, TotalFees;
    var s := Run(config, ZeroRun());
    ZeroRunEffect(config);
    EquityIsAlwaysBooked(config, ZeroRun());
    ZeroBook(s.filled[0], s.filled[1]);
    assert s.filled == [s.filled[0], s.filled[1]] && s.trades == [s.trades[0]];
    OneTrade(s.trades[0]);
    TimesFacts(price, 1.0);
    assert Times(price, -1.0) == -price;
    hide Times;
  }

  /** A percentage commission without slippage. */
  function OnePercent(): Config {
    Config(1000.0, 1.0, 1.0, 0, 0.0, true, 1.0, Percent, false, false, (d, v) => 0.0, 1.0, Contracts, AtOpen)
  }

  /** One unit bought and sold at price one for one percent each: the trade loses one hundredth, and three are gone. */
  lemma OnePercentRoundTrip()
    ensures var sold := Run(OnePercent(), [] + RoundTrip(1.0, 1.0));
      |sold.trades| == 1 && sold.trades[0].pnl == -0.01 && GetEquity(sold) == 1000.0 - 0.03
  {
    RoundTripIsCharged(OnePercent(), [], 1.0, 1.0);
    assert FillCharge(OnePercent(), true, 1.0, 1.0) == FillCharge(OnePercent(), false, 1.0, 1.0) == 0.01;
    assert Slippage(OnePercent(), 1.0) == 0.0;
    assert Run(OnePercent(), []) == Fresh(OnePercent());
    hide Run, RoundTrip, FillCharge, Slippage, GetEquity, SampledFrom, AllUsable;
  }

  // ----- What exits and pending orders trade -----

  lemma {:induction false} LotsOfBounded(lots: seq<Lot>, entryName: string)
    requires AllPositive(lots)
    ensures 0.0 <= LotsOf(lots, entryName) <= SumLots(lots)
  {
    if lots != [] {
      LotsOfBounded(lots[..|lots| - 1], entryName);
    }
  }

  /** An exit from an open position trades against it, no more than is held, nor more than the entry it names holds. */
  lemma ExitOnlyReduces(s: State, r: ExitRequest)
    requires Accounted(s.position) && s.position.direction != Flat && ExitTarget(s, r).Some?
    ensures var (action, quantity) := ExitTarget(s, r).value;
      && !Adds(s.position, action)
      && quantity <= s.position.quantity
      && (r.fromEntry != "" ==> quantity <= LotsOf(s.position.lots, r.fromEntry))
      && (r.quantity.Some? && r.quantity.value != s.position.quantity ==> quantity <= r.quantity.value)
  {
    LotsOfBounded(s.position.lots, r.fromEntry);
    assert SumLots([]) == 0.0;
    hide LotsOf, FirstMarket;
  }

  predicate Inside(price: real, b: Bar) {
    b.low <= price <= b.high
  }

  /** The whole bar lies past the order's price, on the side that triggers it. */
  predicate Gapped(o: Order, b: Bar) {
    if (o.kind == Limit) == (o.action == Buy) then TriggerPrice(o) > b.high else TriggerPrice(o) < b.low
  }

  /** A limit or stop order is hit exactly when the bar reaches its price, and then fills inside the bar,
   * or gaps over it. */
  lemma HitOrdersReachTheirPrice(o: Order, b: Bar)
    requires b.low <= b.high && (o.kind == Limit || o.kind == Stop)
    ensures Hit(o, b) <==> Inside(TriggerPrice(o), b) || Gapped(o, b)
    ensures !(Inside(TriggerPrice(o), b) && Gapped(o, b))
  {
  }

  /** A limit order to buy at two fills at two on a bar that never leaves one. */
  lemma GappedFillIsOutside()
    ensures var o := Order(1, Buy, Limit, 1.0, 2.0, None, Some(2.0), "", None, None, None, "");
      && Hit(o, At(1.0)) && TriggerPrice(o) == 2.0 && !Inside(TriggerPrice(o), At(1.0))
      && forall s: State, config: Config :: s.pending == [o] ==>
           AfterBar(s, config, At(1.0)).filled == s.filled + [Fill(o, AdjustedPrice(config, Buy, 2.0))]
  {
    var o := Order(1, Buy, Limit, 1.0, 2.0, None, Some(2.0), "", None, None, None, "");
    forall s: State, config: Config | s.pending == [o]
      ensures AfterBar(s, config, At(1.0)).filled == s.filled + [Fill(o, AdjustedPrice(config, Buy, 2.0))]
    {
      LimitFills(s, config, o, At(1.0));
    }
  }

  lemma LimitFills(s: State, config: Config, o: Order, b: Bar)
    requires s.pending == [o] && o.kind == Limit && LimitHit(o, b)
    requires o.ocaGroup.None? && o.trailOffset.None? && o.trailPrice.None?
    ensures AfterBar(s, config, b).filled
      == s.filled + [Fill(o, AdjustedPrice(config, o.action, TriggerPrice(o)))]
  {
    BarFillsLimit(s, config, o, b);
    FillEffect(s.(pending := [], currentPrice := b.close), config, o, TriggerPrice(o));
    hide AfterBar, FillOrder, AdjustedPrice, OpenProfit, TriggerPrice, MarginRate;
  }

  /** Whatever the mode, market orders fill inside a valid bar. */
  lemma MarketFillsInsideTheBar(config: Config, b: Bar)
    requires Inside(b.open, b) && Inside(b.close, b)
    ensures Inside(MarketFillPrice(config, b), b)
  {
  }

  // ----- Drawdown -----

  /** While flat, the realized equity has been sampled. */
  predicate Sampled(s: State) {
    s.position.direction == Flat ==> s.equity <= s.peakEquity && s.peakEquity - s.equity <= s.maxDrawdown
  }

  /** Peak and drawdown only grow, and sampling is kept. */
  predicate Covers(s: State, later: State) {
    s.peakEquity <= later.peakEquity && s.maxDrawdown <= later.maxDrawdown && (Sampled(s) ==> Sampled(later))
  }

  lemma NoClosingCharge(config: Config, quantity: real, price: real)
    requires ChargesOnlyOpenings(config)
    ensures FillCharge(config, false, quantity, price) == 0.0
  {
  }

  lemma FillCovers(s: State, config: Config, order: Order, fillPrice: real)
    requires ChargesOnlyOpenings(config)
    ensures Covers(s, FillOrder(s, config, order, fillPrice))
  {
    NoClosingCharge(config, order.quantity, fillPrice);
    hide FillCharge, AdjustedPrice, TradeOf, Reduced, Min, Keep, Average;
  }

  lemma {:induction false} FillAllCovers(s: State, config: Config, orders: seq<Order>, price: real)
    requires ChargesOnlyOpenings(config)
    ensures Covers(s, FillAll(s, config, orders, price))
  {
    if orders != [] {
      var m := |orders| - 1;
      FillAllCovers(s, config, orders[..m], price);
      FillCovers(FillAll(s, config, orders[..m], price), config, orders[m], price);
    }
    hide FillOrder, Sampled;
  }

  lemma {:induction false} FillHitsCovers(s: State, config: Config, orders: seq<Order>)
    requires ChargesOnlyOpenings(config)
    ensures Covers(s, FillHits(s, config, orders))
  {
    if orders != [] {
      var m := |orders| - 1;
      FillHitsCovers(s, config, orders[..m]);
      FillCovers(FillHits(s, config, orders[..m]), config, orders[m], TriggerPrice(orders[m]));
    }
    hide FillOrder, Keep;
  }

  lemma {:induction false} TriggerAllCovers(s: State, config: Config, orders: seq<Order>, b: Bar)
    requires ChargesOnlyOpenings(config)
    ensures Covers(s, TriggerAll(s, config, orders, b))
  {
    if orders != [] {
      var m := |orders| - 1;
      TriggerAllCovers(s, config, orders[..m], b);
      FillCovers(TriggerAll(s, config, orders[..m], b), config, orders[m], orders[m].limitPrice.GetOr(orders[m].price));
    }
    hide FillOrder, Keep;
  }

  lemma BarCovers(s: State, config: Config, b: Bar)
    requires ChargesOnlyOpenings(config)
    ensures Covers(s, AfterBar(s, config, b))
    ensures var after := AfterBar(s, config, b);
      Sampled(s) ==> GetEquity(after) <= after.peakEquity && after.peakEquity - GetEquity(after) <= after.maxDrawdown
  {
    var isMarket, isNot := (o: Order) => o.kind == Market, (o: Order) => o.kind != Market;
    var priced := s.(currentPrice := b.close);
    FillAllCovers(priced.(pending := Keep(s.pending, isNot)), config, Keep(s.pending, isMarket),
      MarketFillPrice(config, b));
    var trailed := Trail(FillMarketOrders(priced, config, b), b);
    var rest := trailed.(pending := Keep(trailed.pending, (o: Order) => !Hit(o, b) && !Triggered(o, b)));
    var hits, triggers := Keep(trailed.pending, (o: Order) => Hit(o, b)),
      Keep(trailed.pending, (o: Order) => Triggered(o, b));
    FillHitsCovers(rest, config, hits);
    TriggerAllCovers(FillHits(rest, config, hits), config, triggers, b);
    hide FillAll, FillHits, TriggerAll, Keep, OpenProfit, Hit, Triggered, UpdateAll, MarketFillPrice;
  }

  lemma NextCovers(s: State, config: Config, op: Op)
    requires ChargesOnlyOpenings(config)
    ensures Covers(s, Next(s, config, op))
  {
    match op
    case Entry(_) =>
    case PlaceOrder(_) =>
    case Exit(r) =>
      var target := ExitTarget(s, r);
      if target.Some? {
        var order := ExitOrder(s, r, target.value.0, target.value.1);
        FillCovers(s.(nextOrderId := order.id), config, order, order.price);
      }
    case Close(_) =>
    case Cancel(_) =>
    case CancelAll =>
    case UpdateBar(b) => BarCovers(s, config, b);
    case Restore(_) =>
    hide FillOrder, ExitTarget, ExitOrder, Requested, CanOpen, QuantityOf, AfterBar, FindOrder;
  }

  lemma {:induction false} AlwaysSampled(config: Config, ops: seq<Op>)
    requires ChargesOnlyOpenings(config)
    ensures Sampled(Run(config, ops))
    decreases |ops|
  {
    if ops != [] {
      var m := |ops| - 1;
      AlwaysSampled(config, ops[..m]);
      NextCovers(Run(config, ops[..m]), config, ops[m]);
      if ops[m].Restore? && ops[m].to <= m {
        AlwaysSampled(config, ops[..ops[m].to]);
      }
    }
    hide Next, ChargesOnlyOpenings;
  }

  /** Nothing goes back to a state saved before the first n operations. */
  predicate NoRollback(ops: seq<Op>, n: nat) {
    forall op :: op in ops && op.Restore? ==> op.to >= n
  }

  lemma {:induction false} LaterCovers(config: Config, ops: seq<Op>, more: seq<Op>)
    requires ChargesOnlyOpenings(config) && NoRollback(more, |ops|)
    ensures Covers(Run(config, ops), Run(config, ops + more))
    decreases |more|
  {
    if more == [] {
      assert ops + more == ops;
    } else {
      var m := |more| - 1;
      var before := Run(config, ops + more[..m]);
      assert more == more[..m] + [more[m]] && more[m] in more;
      LaterCovers(config, ops, more[..m]);
      assert (ops + more)[..|ops + more| - 1] == ops + more[..m];
      if more[m].Restore? {
        var k := more[m].to;
        if k <= |ops| + m {
          assert (ops + more)[..k] == ops + more[..k - |ops|];
          LaterCovers(config, ops, more[..k - |ops|]);
          AlwaysSampled(config, ops + more[..k - |ops|]);
          RestoredCovers(Run(config, ops), before, Run(config, (ops + more)[..k]));
        }
      } else {
        NextCovers(before, config, more[m]);
      }
    }
    hide Next, ChargesOnlyOpenings, Sampled, Restored;
  }

  lemma RestoredCovers(s: State, before: State, saved: State)
    requires Covers(s, saved) && Sampled(saved)
    ensures Covers(s, Restored(before, saved))
  {
  }

  /** The recorded drawdown is at least the fall of the reported equity from one bar to a later one. */
  predicate FallCovered(config: Config, ops: seq<Op>, b: Bar, more: seq<Op>, c: Bar) {
    var early := ops + [UpdateBar(b)];
    var late := early + more + [UpdateBar(c)];
    GetEquity(Run(config, early)) - GetEquity(Run(config, late)) <= Run(config, late).maxDrawdown
  }

  /** When closing fills are charged nothing on top, the drawdown covers every fall that is not rolled back. */
  lemma DrawdownCoversEveryFall(config: Config, ops: seq<Op>, b: Bar, more: seq<Op>, c: Bar)
    requires ChargesOnlyOpenings(config) && NoRollback(more, |ops| + 1)
    ensures FallCovered(config, ops, b, more, c)
  {
    hide Run, AfterBar, GetEquity, Sampled, ChargesOnlyOpenings, NoRollback;
    var early := ops + [UpdateBar(b)];
    var late := early + more + [UpdateBar(c)];
    AlwaysSampled(config, ops);
    RunMore(config, ops, UpdateBar(b));
    BarCovers(Run(config, ops), config, b);
    LaterCovers(config, early, more);
    AlwaysSampled(config, early + more);
    RunMore(config, early + more, UpdateBar(c));
    BarCovers(Run(config, early + more), config, c);
  }

  /** A bar without orders marks the unit held to market. */
  lemma UnitMarked(config: Config, ops: seq<Op>, avgPrice: real, price: real)
    requires AllUsable(config, ops) && HoldsUnit(Run(config, ops), avgPrice) && Run(config, ops).pending == []
    ensures var s, after := Run(config, ops), Run(config, ops + [UpdateBar(At(price))]);
      && AllUsable(config, ops + [UpdateBar(At(price))])
      && HoldsUnit(after, avgPrice) && after.equity == s.equity && GetEquity(after) == s.equity + price - avgPrice
      && SampledFrom(s, after, s.equity + price - avgPrice)
  {
    hide Run, AllUsable, AfterBar, HoldsUnit, GetEquity, SampledFrom;
    RunMore(config, ops, UpdateBar(At(price)));
    UsableMore(config, ops, UpdateBar(At(price)));
    QuietUnit(Run(config, ops), config, avgPrice, price);
  }

  lemma QuietUnit(s: State, config: Config, avgPrice: real, price: real)
    requires HoldsUnit(s, avgPrice) && s.pending == []
    ensures var after := AfterBar(s, config, At(price));
      && HoldsUnit(after, avgPrice) && after.equity == s.equity && GetEquity(after) == s.equity + price - avgPrice
      && SampledFrom(s, after, s.equity + price - avgPrice)
  {
    QuietBar(s, config, At(price));
    hide AfterBar, MarginRate;
  }

  /** A rise above whatever one unit costs. */
  function Rise(config: Config, price: real): real {
    2.0 * (Magnitude(FillCharge(config, true, 1.0, price)) + Magnitude(Slippage(config, price)))
  }

  /** When the unit bought rises and is sold low, the second closing charge is a fall that is not recorded. */
  lemma SecondChargeFallsFurther(config: Config, price: real)
    requires !config.moduleFees
    requires FillCharge(config, true, 1.0, price) == FillCharge(config, false, 1.0, price) > 0.0
    ensures !FallCovered(config, Bought(price) + [CancelAll], At(price + Rise(config, price)),
                         [CancelAll] + [OneUnit(Short)], At(price))
  {
    hide Run, FillCharge, Slippage, Bought, SampledFrom, GetEquity, AllUsable, HoldsUnit;
    var charge, slip := FillCharge(config, true, 1.0, price), Slippage(config, price);
    var high := price + Rise(config, price);
    var held := Bought(price) + [CancelAll];
    EmptyRun(config);
    BuyingIsCharged(config, [], price);
    assert [] + Bought(price) == Bought(price);
    RunMore(config, Bought(price), CancelAll);
    UsableMore(config, Bought(price), CancelAll);
    HeldAfterCancel(Run(config, Bought(price)), Run(config, held), price + slip);
    UnitMarked(config, held, price + slip, high);
    var early := held + [UpdateBar(At(high))];
    HeldAverage(Run(config, early), price + slip);
    SellingIsCharged(config, early, price);
    assert early + ([CancelAll] + [OneUnit(Short)]) + [UpdateBar(At(price))] == early + Sold(price);
    PeakThenFall(Run(config, []), Run(config, Bought(price)), Run(config, held), Run(config, early),
                 Run(config, early + Sold(price)), charge, slip, Rise(config, price));
  }

  lemma EmptyRun(config: Config)
    ensures Run(config, []) == Fresh(config) && AllUsable(config, [])
  {
  }

  lemma HeldAfterCancel(s: State, t: State, avgPrice: real)
    requires HoldsUnit(s, avgPrice) && t == s.(pending := [])
    ensures HoldsUnit(t, avgPrice)
  {
  }

  lemma HeldAverage(s: State, avgPrice: real)
    requires HoldsUnit(s, avgPrice)
    ensures s.position.avgPrice == avgPrice
  {
  }

  lemma PeakThenFall(s: State, bought: State, held: State, early: State, late: State, charge: real, slip: real,
                     rise: real)
    requires s.peakEquity == s.equity && s.maxDrawdown == 0.0 && charge > 0.0
    requires rise == 2.0 * (charge + Magnitude(slip))
    requires SampledFrom(s, bought, s.equity - charge - slip) && bought.equity == s.equity - charge
    requires held == bought.(pending := []) && SampledFrom(held, early, held.equity + rise - slip)
    requires early.equity == held.equity && GetEquity(early) == held.equity + rise - slip
    requires SampledFrom(early, late, early.equity - 2.0 * slip - charge)
    requires GetEquity(late) == early.equity - 2.0 * slip - 2.0 * charge
    ensures GetEquity(early) - GetEquity(late) > late.maxDrawdown
  {
    hide GetEquity;
  }

  /** A bar that fills a single limit order. */
  lemma BarFillsLimit(s: State, config: Config, o: Order, b: Bar)
    requires s.pending == [o] && o.kind == Limit && LimitHit(o, b)
    requires o.ocaGroup.None? && o.trailOffset.None? && o.trailPrice.None?
    ensures AfterBar(s, config, b)
      == CheckLiquidation(MarkToMarket(FillOrder(s.(pending := [], currentPrice := b.close), config, o,
        TriggerPrice(o)), b.close), config)
  {
    var priced := s.(currentPrice := b.close);
    NoMarketOrder(priced, config, o, b);
    NoTrail(priced, o, b);
    OneHit(priced, config, o, b);
    hide FillMarketOrders, Trail, ProcessPending, FillOrder, MarkToMarket, CheckLiquidation, TriggerPrice;
  }

  lemma NoMarketOrder(s: State, config: Config, o: Order, b: Bar)
    requires s.pending == [o] && o.kind == Limit
    ensures FillMarketOrders(s, config, b) == s
  {
    KeepOne(o, (x: Order) => x.kind == Market);
    KeepOne(o, (x: Order) => x.kind != Market);
    assert s.(pending := [o]) == s;
    hide Keep, MarketFillPrice;
  }

  lemma NoTrail(s: State, o: Order, b: Bar)
    requires s.pending == [o] && o.trailOffset.None? && o.trailPrice.None?
    ensures Trail(s, b) == s
  {
    var t := Tick(s.position.direction, s.position.avgPrice, b.high, b.low, b.close);
    assert [o][..0] == [] && UpdateAll([], s.stops, t) == ([], s.stops);
    assert UpdateOne(o, Lookup(s.stops, o.id), t) == (o, Lookup(s.stops, o.id));
    assert Store(s.stops, o.id, Lookup(s.stops, o.id)) == s.stops;
    assert [] + [o] == [o];
    assert UpdateAll([o], s.stops, t) == ([o], s.stops);
  }

  lemma OneHit(s: State, config: Config, o: Order, b: Bar)
    requires s.pending == [o] && o.kind == Limit && LimitHit(o, b) && o.ocaGroup.None?
    ensures ProcessPending(s, config, b) == FillOrder(s.(pending := []), config, o, TriggerPrice(o))
  {
    assert [o][..0] == [];
    KeepOne(o, (x: Order) => Hit(x, b));
    KeepOne(o, (x: Order) => Triggered(x, b));
    KeepOne(o, (x: Order) => !Hit(x, b) && !Triggered(x, b));
    hide FillOrder, LimitHit, StopHit, TriggerPrice, Keep;
    var bare := s.(pending := []);
    assert FillHits(bare, config, []) == bare;
    assert FillHits(bare, config, [o]) == FillOrder(bare, config, o, TriggerPrice(o));
  }

  /** A request to sell one unit at a limit of one, and a bar that reaches it and closes far above. */
  function LimitShort(): Op {
    PlaceOrder(Request("", Short, Some(1.0), 1.0, None, Some(1.0)))
  }

  function LimitShortOrder(id: OrderId): Order {
    Order(id, Sell, Limit, 1.0, 1.0, None, Some(1.0), "", None, None, None, "")
  }

  function Surge(rise: real): Bar {
    Bar(1.0 + rise, 1.0 + rise, 1.0, 1.0 + rise)
  }

  lemma UnitShorted(s: State, config: Config, id: OrderId, rise: real)
    requires s.position == NoPosition && s.pending == [LimitShortOrder(id)] && rise >= 0.0
    ensures var after := AfterBar(s, config, Surge(rise));
      var value := s.equity - FillCharge(config, true, 1.0, 1.0) - Slippage(config, 1.0) - rise;
      GetEquity(after) == value && SampledFrom(s, after, value)
  {
    BarFillsLimit(s, config, LimitShortOrder(id), Surge(rise));
    hide AfterBar, FillCharge, Slippage, MarginRate;
  }

  lemma ShortingLoses(config: Config, ops: seq<Op>, rise: real)
    requires Run(config, ops).position == NoPosition && !config.moduleFees && rise >= 0.0
    ensures var s := Run(config, ops);
      var after := Run(config, ops + ([CancelAll] + [LimitShort()]) + [UpdateBar(Surge(rise))]);
      var value := s.equity - FillCharge(config, true, 1.0, 1.0) - Slippage(config, 1.0) - rise;
      GetEquity(after) == value && SampledFrom(s, after, value)
  {
    hide Run, AfterBar, FillCharge, Slippage, SampledFrom, GetEquity;
    var s := Run(config, ops);
    var cancelled := s.(pending := []);
    RunMore(config, ops, CancelAll);
    RunMore(config, ops + [CancelAll], LimitShort());
    RunMore(config, ops + [CancelAll] + [LimitShort()], UpdateBar(Surge(rise)));
    assert ops + ([CancelAll] + [LimitShort()]) == ops + [CancelAll] + [LimitShort()];
    var placed := Push(cancelled, LimitShortOrder(s.nextOrderId + 1));
    assert placed.pending == [LimitShortOrder(s.nextOrderId + 1)];
    UnitShorted(placed, config, s.nextOrderId + 1, rise);
    SamePeaks(s, placed, Run(config, ops + ([CancelAll] + [LimitShort()]) + [UpdateBar(Surge(rise))]),
      s.equity - FillCharge(config, true, 1.0, 1.0) - Slippage(config, 1.0) - rise);
  }

  /** The profit of a round trip of one unit. */
  function UnitPnl(config: Config, buy: real, sell: real): real {
    sell - Slippage(config, sell) - (buy + Slippage(config, buy)) - FillCharge(config, false, 1.0, sell)
  }

  /** A second rebate lifts the reported equity above everything sampled, and a later loss falls from there. */
  lemma SecondRebateFallsFurther(config: Config, buy: real, sell: real) returns (c: Bar)
    requires !config.moduleFees && FillCharge(config, false, 1.0, sell) < 0.0
    requires var last := UnitPnl(config, buy, sell) - FillCharge(config, false, 1.0, sell);
      last > FillCharge(config, true, 1.0, buy) && last > -Slippage(config, buy)
    ensures !FallCovered(config, Bought(buy) + ([CancelAll] + [OneUnit(Short)]), At(sell),
                         [CancelAll] + [LimitShort()], c)
  {
    hide Run, FillCharge, Slippage, Bought, SampledFrom, GetEquity, AllUsable;
    EmptyRun(config);
    RoundTripIsCharged(config, [], buy, sell);
    var early := RoundTrip(buy, sell);
    assert [] + early == early && [] + Bought(buy) == Bought(buy);
    assert Bought(buy) + ([CancelAll] + [OneUnit(Short)]) + [UpdateBar(At(sell))] == early;
    var closing, charge := FillCharge(config, false, 1.0, sell), FillCharge(config, true, 1.0, 1.0);
    var sold, slip := Run(config, early), Slippage(config, 1.0);
    var rise := Magnitude(sold.maxDrawdown) - closing + Magnitude(charge) + Magnitude(slip);
    c := Surge(rise);
    ShortingLoses(config, early, rise);
    RiseThenFall(Run(config, []), Run(config, Bought(buy)), sold,
                 Run(config, early + ([CancelAll] + [LimitShort()]) + [UpdateBar(c)]),
                 FillCharge(config, true, 1.0, buy), Slippage(config, buy), UnitPnl(config, buy, sell), closing,
                 charge + slip, rise);
  }

  lemma RiseThenFall(s: State, bought: State, sold: State, late: State, opening: real, slip: real, pnl: real,
                     closing: real, cost: real, rise: real)
    requires s.peakEquity == s.equity && s.maxDrawdown == 0.0 && closing < 0.0
    requires pnl - closing > opening && pnl - closing > -slip
    requires SampledFrom(s, bought, s.equity - opening - slip)
    requires SampledFrom(bought, sold, s.equity - opening + pnl)
    requires GetEquity(sold) == sold.equity == s.equity - opening + pnl - closing
    requires rise >= Magnitude(sold.maxDrawdown) - closing - cost
    requires SampledFrom(sold, late, sold.equity - cost - rise) && GetEquity(late) == sold.equity - cost - rise
    ensures GetEquity(sold) - GetEquity(late) > late.maxDrawdown
  {
    hide GetEquity;
  }

  predicate EveryFallCovered(config: Config, ops: seq<Op>, b: Bar, more: seq<Op>, c: Bar) {
    NoRollback(more, |ops| + 1) ==> FallCovered(config, ops, b, more, c)
  }

  ghost predicate AlwaysCovered(config: Config) {
    forall ops: seq<Op>, b: Bar, more: seq<Op>, c: Bar :: EveryFallCovered(config, ops, b, more, c)
  }

  lemma PositiveChargeIsMissed(config: Config, price: real)
    requires !config.moduleFees
    requires FillCharge(config, true, 1.0, price) == FillCharge(config, false, 1.0, price) > 0.0
    ensures !AlwaysCovered(config)
  {
    SecondChargeFallsFurther(config, price);
    hide FallCovered, FillCharge, Rise, Bought;
    assert !EveryFallCovered(config, Bought(price) + [CancelAll], At(price + Rise(config, price)),
                             [CancelAll] + [OneUnit(Short)], At(price));
  }

  lemma RebateIsMissed(config: Config, buy: real, sell: real)
    requires !config.moduleFees && FillCharge(config, false, 1.0, sell) < 0.0
    requires var last := UnitPnl(config, buy, sell) - FillCharge(config, false, 1.0, sell);
      last > FillCharge(config, true, 1.0, buy) && last > -Slippage(config, buy)
    ensures !AlwaysCovered(config)
  {
    hide FallCovered, FillCharge, UnitPnl, Bought;
    var c := SecondRebateFallsFurther(config, buy, sell);
    assert !EveryFallCovered(config, Bought(buy) + ([CancelAll] + [OneUnit(Short)]), At(sell),
                             [CancelAll] + [LimitShort()], c);
  }

  /** Charges of one unit outside the flat commissions. */
  lemma UnitCharge(config: Config, flat: bool, price: real)
    requires !ChargesOnlyOpenings(config)
    ensures FillCharge(config, flat, 1.0, price)
      == if config.commissionType == PerContract then config.commission else price * (config.commission / 100.0)
  {
  }

  lemma TickSlippage(config: Config, price: real)
    requires config.slippageInTicks || config.slippage == 0.0
    ensures Slippage(config, price) == config.slippage
  {
  }

  /** A rebate and slippage that does not depend on the price: sell high enough. */
  lemma DearRebate(config: Config) returns (price: real)
    requires !ChargesOnlyOpenings(config) && config.commission < 0.0
    requires config.slippageInTicks || config.slippage == 0.0
    ensures price > 0.0 && FillCharge(config, false, 1.0, price) < 0.0 && FillCharge(config, true, 1.0, 1.0) < 0.0
    ensures price == 1.0 + 2.0 * Magnitude(config.slippage)
    ensures Slippage(config, price) == Slippage(config, 1.0) == config.slippage
  {
    price := 1.0 + 2.0 * Magnitude(config.slippage);
    UnitCharge(config, false, price);
    UnitCharge(config, true, 1.0);
    TickSlippage(config, price);
    TickSlippage(config, 1.0);
    NegativeProduct(price, config.commission / 100.0);
    hide FillCharge, Slippage;
  }

  lemma NegativeProduct(a: real, b: real)
    requires a > 0.0 && b < 0.0
    ensures a * b < 0.0
  {
  }

  /** A rebate per contract and slippage in percent: trade at a price low enough. */
  lemma CheapRebate(config: Config) returns (price: real)
    requires !ChargesOnlyOpenings(config) && config.commissionType == PerContract && config.commission < 0.0
    requires !config.slippageInTicks && config.slippage != 0.0
    ensures FillCharge(config, false, 1.0, price) == FillCharge(config, true, 1.0, price) == config.commission
    ensures -config.commission > Slippage(config, price) && price > 0.0
  {
    var rate := Magnitude(config.slippage / 100.0);
    price := -config.commission / (rate + 1.0);
    Quotient(-config.commission, rate + 1.0);
    ProductBound(price, config.slippage / 100.0, rate);
    UnitCharge(config, false, price);
    UnitCharge(config, true, price);
    hide FillCharge;
  }

  lemma Quotient(x: real, d: real)
    requires x > 0.0 && d > 0.0
    ensures x / d > 0.0 && x / d * d == x
  {
  }

  lemma ProductBound(a: real, x: real, y: real)
    requires a > 0.0 && x <= y
    ensures a * x <= a * y && a * (y + 1.0) == a * y + a
  {
  }

  /** Otherwise some run falls by a second closing charge, or from a second rebate, more than is recorded. */
  lemma SomeFallIsMissed(config: Config)
    requires !ChargesOnlyOpenings(config)
    ensures !AlwaysCovered(config)
  {
    hide AlwaysCovered, FillCharge, Slippage, ChargesOnlyOpenings;
    Charging(config);
    UnitCharge(config, false, 1.0);
    UnitCharge(config, true, 1.0);
    if config.commission > 0.0 {
      PositiveChargeIsMissed(config, 1.0);
    } else if config.slippageInTicks || config.slippage == 0.0 {
      var price := DearRebate(config);
      RebateIsMissed(config, 1.0, price);
    } else if config.commissionType == PerContract {
      var price := CheapRebate(config);
      RebateIsMissed(config, price, price);
    } else {
      UnitCharge(config, false, -1.0);
      UnitCharge(config, true, -1.0);
      PositiveChargeIsMissed(config, -1.0);
    }
  }

  lemma Charging(config: Config)
    requires !ChargesOnlyOpenings(config)
    ensures !config.moduleFees && config.commission != 0.0
    ensures config.commissionType == Percent || config.commissionType == PerContract
  {
  }

  /** The drawdown covers every fall of every run exactly when closing fills are charged on their trade only. */
  lemma DrawdownCoversExactly(config: Config)
    ensures (forall ops: seq<Op>, b: Bar, more: seq<Op>, c: Bar :: EveryFallCovered(config, ops, b, more, c))
      <==> ChargesOnlyOpenings(config)
  {
    hide FallCovered;
    if ChargesOnlyOpenings(config) {
      forall ops: seq<Op>, b: Bar, more: seq<Op>, c: Bar
        ensures EveryFallCovered(config, ops, b, more, c)
      {
        if NoRollback(more, |ops| + 1) {
          DrawdownCoversEveryFall(config, ops, b, more, c);
        }
      }
    } else {
      SomeFallIsMissed(config);
    }
    hide ChargesOnlyOpenings;
  }

  // ----- The engine -----

  method KeepOrders(orders: seq<Order>, p: Order -> bool) returns (kept: seq<Order>)
    ensures kept == Keep(orders, p)
  {
    kept := [];
    for i := 0 to |orders|
      invariant kept == Keep(orders[..i], p)
    {
      assert orders[..i + 1][..i] == orders[..i];
      if p(orders[i]) {
        kept := kept + [orders[i]];
      }
    }
    assert orders[..|orders|] == orders;
  }

  /** Takes a quantity from the lots: first from the one named, then from the oldest. */
  method ReduceLotsInPlace(held: seq<Lot>, quantity: real, fromEntry: string) returns (lots: seq<Lot>)
    ensures lots == ReduceLots(held, quantity, fromEntry)
  {
    lots := held;
    var remaining := quantity;
    if fromEntry != "" {
      var i := FirstLot(lots, fromEntry);
      if i.Some? {
        var lot := lots[i.value];
        if lot.quantity <= remaining {
          remaining := remaining - lot.quantity;
          lots := lots[..i.value] + lots[i.value + 1..];
        } else {
          lots := lots[i.value := lot.(quantity := lot.quantity - remaining)];
          remaining := 0.0;
        }
      }
    }
    while remaining > 0.0 && lots != []
      invariant PopLots(lots, remaining) == ReduceLots(held, quantity, fromEntry)
      decreases |lots|, if remaining > 0.0 then 1 else 0
    {
      if lots[0].quantity <= remaining {
        remaining := remaining - lots[0].quantity;
        lots := lots[1..];
      } else {
        lots := [lots[0].(quantity := lots[0].quantity - remaining)] + lots[1..];
        remaining := 0.0;
      }
    }
  }

  /** What saveState writes: everything but the order counter, the price and the charges. */
  datatype Snapshot = Snapshot(
    position: Position, stops: Stops, pending: seq<Order>, filled: seq<Fill>, trades: seq<Trade>,
    equity: real, peakEquity: real, maxDrawdown: real, entries: nat)

  function SnapshotOf(s: State): Snapshot {
    Snapshot(s.position, s.stops, s.pending, s.filled, s.trades, s.equity, s.peakEquity, s.maxDrawdown, s.entries)
  }

  class Engine {
    const config: Config
    const trailingStopManager: TrailingStopManager
    var position: Position
    var pendingOrders: seq<Order>
    var filledOrders: seq<Fill>
    var trades: seq<Trade>
    var equity: real
    var peakEquity: real
    var maxDrawdown: real
    var currentPrice: real
    var entries: nat
    var nextOrderId: nat
    ghost var charged: real

    ghost function View(): State
      reads this, trailingStopManager
    {
      State(position, pendingOrders, filledOrders, trades, equity, peakEquity, maxDrawdown, charged,
            currentPrice, entries, nextOrderId, trailingStopManager.trailingStops)
    }

    constructor (config: Config)
      ensures this.config == config && View() == Fresh(config) && fresh(trailingStopManager)
    {
      this.config := config;
      trailingStopManager := new TrailingStopManager();
      position := NoPosition;
      pendingOrders, filledOrders, trades := [], [], [];
      equity, peakEquity := config.initialCapital, config.initialCapital;
      maxDrawdown, charged, currentPrice := 0.0, 0.0, 0.0;
      entries, nextOrderId := 0, 0;
    }

    method SampleEquity(value: real)
      modifies this`peakEquity, this`maxDrawdown
      ensures View() == UpdateDrawdown(old(View()), value)
    {
      if value > peakEquity {
        peakEquity := value;
      }
      var drawdown := peakEquity - value;
      if drawdown > maxDrawdown {
        maxDrawdown := drawdown;
      }
    }

    method CancelOcaGroup(group: string)
      modifies this`pendingOrders
      ensures View() == CancelGroup(old(View()), group)
    {
      pendingOrders := KeepOrders(pendingOrders, (o: Order) => o.ocaGroup != Some(group));
    }

    method OpenOrAddPosition(side: Side, quantity: real, price: real, entryName: string)
      modifies this`position, trailingStopManager
      ensures View() == Opened(old(View()), side, quantity, price, entryName)
    {
      if position.direction == Flat {
        position := Position(side, quantity, price, entryName, 0.0, [Lot(entryName, quantity, price)]);
        trailingStopManager.Clear();
      } else {
        var average := Average(position.avgPrice, position.quantity, price, quantity);
        position := position.(avgPrice := average, quantity := position.quantity + quantity,
                              lots := position.lots + [Lot(entryName, quantity, price)]);
      }
    }

    method CloseOrReducePosition(quantity: real, price: real, charge: real, exitName: string, fromEntry: string)
      requires position.direction != Flat
      modifies this
      ensures charged == old(charged)
      ensures View() == ClosedOrReduced(old(View()), config, quantity, price, charge, exitName, fromEntry)
    {
      hide Keep, ReduceLots, Profit, Times, SumLots;
      var closeQuantity := Min(quantity, position.quantity);
      var grossPnl := Profit(position.direction, position.avgPrice, price, closeQuantity);
      var totalFees := TradeFees(config, position, closeQuantity, charge);
      var netPnl := grossPnl - totalFees;
      trades := trades + [Trade(position.direction, position.avgPrice, price, closeQuantity, netPnl, totalFees,
        exitName)];
      equity := equity + netPnl;
      var left := position.quantity - closeQuantity;
      var lots := ReduceLotsInPlace(position.lots, closeQuantity, fromEntry);
      position := position.(quantity := left, lots := lots);
      if left <= 0.0 {
        if position.entryName != "" {
          CancelOcaGroup(OcaGroup(position.entryName));
        }
        entries := 0;
        position := NoPosition;
      }
      SampleEquity(equity);
    }

    method ExecuteFill(order: Order, fillPrice: real)
      modifies this, trailingStopManager
      ensures View() == FillOrder(old(View()), config, order, fillPrice)
    {
      hide Slippage, ClosedOrReduced, Opened;
      var slippage := Slippage(config, fillPrice);
      var isFlat := position.direction == Flat;
      var adjusted := if order.action == Buy then fillPrice + slippage else fillPrice - slippage;
      var charge := FillCharge(config, isFlat, order.quantity, fillPrice);
      filledOrders := filledOrders + [Fill(order, adjusted)];
      if order.action == Buy {
        if isFlat || position.direction == Long {
          OpenOrAddPosition(Long, order.quantity, adjusted, order.entryName);
        } else {
          CloseOrReducePosition(order.quantity, adjusted, charge, order.entryName, order.fromEntry);
        }
      } else {
        if isFlat || position.direction == Short {
          OpenOrAddPosition(Short, order.quantity, adjusted, order.entryName);
        } else {
          CloseOrReducePosition(order.quantity, adjusted, charge, order.entryName, order.fromEntry);
        }
      }
      equity := equity - charge;
      charged := charged + charge;
    }

    method FillPendingMarketOrders(b: Bar)
      modifies this, trailingStopManager
      ensures View() == FillMarketOrders(old(View()), config, b)
    {
      hide Keep, FillOrder, MarketFillPrice;
      var market := KeepOrders(pendingOrders, (o: Order) => o.kind == Market);
      pendingOrders := KeepOrders(pendingOrders, (o: Order) => o.kind != Market);
      var price := MarketFillPrice(config, b);
      ghost var start := View();
      for i := 0 to |market|
        invariant View() == FillAll(start, config, market[..i], price)
      {
        assert market[..i + 1][..i] == market[..i];
        ExecuteFill(market[i], price);
      }
      assert market[..|market|] == market;
    }

    /** One pass over the pending orders: those hit, those triggered, and the rest. */
    static method Sort(orders: seq<Order>, b: Bar) returns (hits: seq<Order>, triggers: seq<Order>, rest: seq<Order>)
      ensures hits == Keep(orders, (o: Order) => Hit(o, b))
      ensures triggers == Keep(orders, (o: Order) => Triggered(o, b))
      ensures rest == Keep(orders, (o: Order) => !Hit(o, b) && !Triggered(o, b))
    {
      hits, triggers, rest := [], [], [];
      for i := 0 to |orders|
        invariant hits == Keep(orders[..i], (o: Order) => Hit(o, b))
        invariant triggers == Keep(orders[..i], (o: Order) => Triggered(o, b))
        invariant rest == Keep(orders[..i], (o: Order) => !Hit(o, b) && !Triggered(o, b))
      {
        var o := orders[i];
        assert orders[..i + 1][..i] == orders[..i];
        if o.kind == Limit && LimitHit(o, b) {
          hits := hits + [o];
        } else if o.kind == Stop && StopHit(o, b) {
          hits := hits + [o];
        } else if o.kind == StopLimit && StopHit(o, b) {
          triggers := triggers + [o];
        } else {
          rest := rest + [o];
        }
      }
      assert orders[..|orders|] == orders;
    }

    method ProcessPendingOrders(b: Bar)
      modifies this, trailingStopManager
      ensures View() == ProcessPending(old(View()), config, b)
    {
      hide Keep, FillOrder, Hit, Triggered, LimitHit, CancelGroup;
      var hits, triggers, rest := Sort(pendingOrders, b);
      pendingOrders := rest;
      ghost var start := View();
      for i := 0 to |hits|
        invariant View() == FillHits(start, config, hits[..i])
      {
        assert hits[..i + 1][..i] == hits[..i];
        ExecuteFill(hits[i], TriggerPrice(hits[i]));
        if hits[i].ocaGroup.Some? {
          CancelOcaGroup(hits[i].ocaGroup.value);
        }
      }
      assert hits[..|hits|] == hits;
      ghost var filled := View();
      for i := 0 to |triggers|
        invariant View() == TriggerAll(filled, config, triggers[..i], b)
      {
        assert triggers[..i + 1][..i] == triggers[..i];
        TriggerStopLimit(triggers[i], b);
      }
      assert triggers[..|triggers|] == triggers;
    }

    method TriggerStopLimit(o: Order, b: Bar)
      modifies this, trailingStopManager
      ensures View() == TriggerOne(old(View()), config, o, b)
    {
      hide FillOrder, LimitHit, CancelGroup;
      var limitPrice := o.limitPrice.GetOr(o.price);
      if LimitHit(o, b) {
        ExecuteFill(o, limitPrice);
        if o.ocaGroup.Some? {
          CancelOcaGroup(o.ocaGroup.value);
        }
      } else {
        nextOrderId := nextOrderId + 1;
        pendingOrders := pendingOrders
          + [o.(id := nextOrderId, kind := Limit, price := limitPrice, limitPrice := Some(limitPrice),
            stopPrice := None)];
      }
    }

    method UpdatePositionPnl(price: real)
      modifies this`position, this`peakEquity, this`maxDrawdown
      ensures View() == MarkToMarket(old(View()), price)
    {
      hide Profit;
      if position.direction == Flat {
        return;
      }
      var profit := Profit(position.direction, position.avgPrice, price, position.quantity);
      position := position.(unrealizedPnl := profit);
      SampleEquity(equity + position.unrealizedPnl);
    }

    method ClosePosition(name: string)
      modifies this`pendingOrders, this`nextOrderId
      ensures View() == Closing(old(View()), name)
    {
      if position.direction == Flat || position.quantity == 0.0 {
        return;
      }
      nextOrderId := nextOrderId + 1;
      pendingOrders := pendingOrders
        + [Order(nextOrderId, if position.direction == Long then Sell else Buy, Market, position.quantity,
                 currentPrice, None, None, name, None, None, None, "")];
    }

    method LiquidateIfNeeded()
      modifies this`pendingOrders, this`nextOrderId
      ensures View() == CheckLiquidation(old(View()), config)
    {
      hide Closing;
      if position.direction == Flat || position.quantity == 0.0 {
        return;
      }
      var marginRate := MarginRate(config, position.direction);
      if marginRate <= 0.0 {
        return;
      }
      if equity + position.unrealizedPnl < currentPrice * position.quantity * marginRate {
        ClosePosition("liquidation");
      }
    }

    method ProcessBar(b: Bar)
      modifies this, trailingStopManager
      ensures View() == AfterBar(old(View()), config, b)
    {
      hide FillMarketOrders, ProcessPending, MarkToMarket, CheckLiquidation, UpdateAll;
      currentPrice := b.close;
      FillPendingMarketOrders(b);
      pendingOrders := trailingStopManager.Update(pendingOrders,
        Tick(position.direction, position.avgPrice, b.high, b.low, b.close));
      ProcessPendingOrders(b);
      UpdatePositionPnl(b.close);
      LiquidateIfNeeded();
    }

    /** entry: a long or short entry, a reversal, or nothing. */
    method Enter(r: Request)
      modifies this
      ensures charged == old(charged)
      ensures View() == AfterEntry(old(View()), config, r)
    {
      hide CanOpen, DefaultQuantity, Closing;
      ghost var start := View();
      var quantity := if r.quantity.Some? then r.quantity.value else QuantityNow();
      if config.moduleFees && config.longOnly && r.side == Short {
        if position.direction == Long {
          ClosePosition(NameOr(position.entryName, r.name));
        }
        return;
      }
      var canOpen := CanOpenNow(r.side, quantity);
      if !canOpen {
        if position.direction != Flat && position.direction != r.side {
          ClosePosition(NameOr(position.entryName, r.name));
        } else {
          return;
        }
      }
      PlaceRequest(r, quantity);
      entries := entries + 1;
    }

    function QuantityNow(): (quantity: real)
      reads this, trailingStopManager
      ensures quantity == DefaultQuantity(View(), config)
    {
      match config.defaultQtyType
      case Contracts => config.defaultQty
      case Cash => if currentPrice > 0.0 then config.defaultQty / currentPrice else 0.0
      case PercentOfEquity =>
        if currentPrice > 0.0 then (equity + position.unrealizedPnl) * (config.defaultQty / 100.0) / currentPrice
        else 0.0
    }

    method CanOpenNow(side: Side, quantity: real) returns (ok: bool)
      ensures ok == CanOpen(View(), config, side, quantity)
    {
      var marginUsed :=
        if position.direction != Flat then currentPrice * position.quantity * MarginRate(config, position.direction)
        else 0.0;
      var freeMargin := equity + position.unrealizedPnl - marginUsed;
      if position.direction == Flat {
        return currentPrice * quantity * MarginRate(config, side) <= freeMargin;
      }
      if position.direction == side {
        if entries >= config.pyramiding + 1 {
          return false;
        }
        return currentPrice * quantity * MarginRate(config, side) <= freeMargin;
      }
      return false;
    }

    method PlaceRequest(r: Request, quantity: real)
      modifies this`pendingOrders, this`nextOrderId
      ensures nextOrderId == old(nextOrderId) + 1
      ensures pendingOrders == old(pendingOrders)
        + [Order(nextOrderId, if r.side == Long then Buy else Sell, KindOf(r.stopPrice, r.limitPrice), quantity,
                 if KindOf(r.stopPrice, r.limitPrice) == Market && r.price == 0.0 then currentPrice else r.price,
                 r.stopPrice, r.limitPrice, r.name, None, None, None, "")]
    {
      var kind := KindOf(r.stopPrice, r.limitPrice);
      var price := r.price;
      if kind == Market && price == 0.0 {
        price := currentPrice;
      }
      nextOrderId := nextOrderId + 1;
      pendingOrders := pendingOrders
        + [Order(nextOrderId, if r.side == Long then Buy else Sell, kind, quantity, price,
                 r.stopPrice, r.limitPrice, r.name, None, None, None, "")];
    }

    method Submit(r: Request)
      modifies this`pendingOrders, this`nextOrderId
      ensures View() == AfterOrder(old(View()), config, r)
    {
      hide DefaultQuantity;
      var quantity := if r.quantity.Some? then r.quantity.value else QuantityNow();
      if config.moduleFees && config.longOnly && r.side == Short && position.direction != Long {
        return;
      }
      PlaceRequest(r, quantity);
    }

    /** The quantity in the lots of one entry, summed lot by lot. */
    static method MatchingQuantity(lots: seq<Lot>, entryName: string) returns (sum: real)
      ensures sum == LotsOf(lots, entryName)
    {
      sum := 0.0;
      for i := 0 to |lots|
        invariant sum == LotsOf(lots[..i], entryName)
      {
        assert lots[..i + 1][..i] == lots[..i];
        if lots[i].entryName == entryName {
          sum := sum + lots[i].quantity;
        }
      }
      assert lots[..|lots|] == lots;
    }

    method ExitPosition(r: ExitRequest)
      modifies this, trailingStopManager
      ensures View() == AfterExit(old(View()), config, r)
    {
      hide FillOrder, FirstMarket, LotsOf, ExitKind, PriceOf;
      var quantity := r.quantity.GetOr(position.quantity);
      var action, exitQuantity;
      if position.direction != Flat && position.quantity > 0.0 {
        action := if position.direction == Long then Sell else Buy;
        if r.fromEntry != "" && position.lots != [] {
          var matching := MatchingQuantity(position.lots, r.fromEntry);
          if matching <= 0.0 {
            return;
          }
          exitQuantity := Min(if quantity == position.quantity then matching else quantity, matching);
        } else {
          exitQuantity := Min(quantity, position.quantity);
        }
      } else {
        var entry := FirstMarket(pendingOrders);
        if entry.None? {
          return;
        }
        action := Opposite(entry.value.action);
        exitQuantity := if quantity != 0.0 then quantity else entry.value.quantity;
      }
      assert ExitTarget(View(), r) == Some((action, exitQuantity));
      hide ExitTarget;
      PlaceExit(r, action, exitQuantity);
    }

    method PlaceExit(r: ExitRequest, action: Action, quantity: real)
      modifies this, trailingStopManager
      ensures var s := old(View()); var order := ExitOrder(s, r, action, quantity);
        View() == if order.kind == Market then FillOrder(s.(nextOrderId := order.id), config, order, order.price)
                  else Push(s, order)
    {
      hide FillOrder;
      var kind := ExitKind(r);
      var price := r.price;
      if kind == Market && price == 0.0 {
        price := currentPrice;
      }
      nextOrderId := nextOrderId + 1;
      var group := if kind != Market && position.direction != Flat then Some(OcaGroup(position.entryName)) else None;
      var order := Order(nextOrderId, action, kind, quantity, price, r.stopPrice, r.limitPrice, r.name, group,
                         r.trailPrice, r.trailOffset, r.fromEntry);
      if kind == Market {
        ExecuteFill(order, price);
      } else {
        pendingOrders := pendingOrders + [order];
      }
    }

    method CancelOrder(id: OrderId) returns (found: bool)
      modifies this`pendingOrders
      ensures View() == AfterCancel(old(View()), id)
      ensures found <==> exists o :: o in old(pendingOrders) && o.id == id
    {
      var i := FindOrder(pendingOrders, id);
      if i.None? {
        return false;
      }
      assert pendingOrders[i.value] in pendingOrders;
      pendingOrders := pendingOrders[..i.value] + pendingOrders[i.value + 1..];
      return true;
    }

    method SaveState() returns (saved: Snapshot)
      ensures saved == SnapshotOf(View())
    {
      saved := Snapshot(position, trailingStopManager.trailingStops, pendingOrders, filledOrders, trades,
                        equity, peakEquity, maxDrawdown, entries);
    }

    /** Goes back to what was saved in the given earlier state. */
    method RestoreState(saved: Snapshot, ghost earlier: State)
      requires saved == SnapshotOf(earlier)
      modifies this, trailingStopManager
      ensures View() == Restored(old(View()), earlier)
    {
      position := saved.position;
      pendingOrders := saved.pending;
      trailingStopManager.RestoreState(saved.stops);
      filledOrders := saved.filled;
      trades := saved.trades;
      equity := saved.equity;
      peakEquity := saved.peakEquity;
      maxDrawdown := saved.maxDrawdown;
      entries := saved.entries;
      charged := earlier.charged;
    }

    method CancelEveryOrder()
      modifies this`pendingOrders
      ensures View() == old(View()).(pending := [])
    {
      pendingOrders := [];
    }
  }
}
