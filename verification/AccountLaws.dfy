/** What fills, requests and liquidation do to the account, law by law (src/strategy/strategy-engine.ts). */
module AccountLaws {
  import opened Arithmetic
  import opened Prelude
  import opened Orders
  import opened TrailingStop
  import opened Positions
  import opened CashLedger
  import opened StrategyEngine
  import opened OrderLaws

  // ----- What one fill does -----

  /** Nothing under a commission method; flat fees on opening fills only; else per contract or per cent of the value. */
  predicate ChargedAs(config: Config, opening: bool, quantity: real, price: real, charge: real) {
    if config.moduleFees then charge == 0.0
    else
      match config.commissionType
      case Fixed => charge == if opening then config.commission else 0.0
      case PerOrder => charge == if opening then config.commission else 0.0
      case PerContract => charge == config.commission * quantity
      case Percent => 100.0 * charge == price * quantity * config.commission
  }

  lemma FillChargeIsChargedAs(config: Config, opening: bool, quantity: real, price: real)
    ensures ChargedAs(config, opening, quantity, price, FillCharge(config, opening, quantity, price))
  {
    Percents(price * quantity, config.commission);
    if config.commission == 0.0 {
      Vanishes(quantity);
      Vanishes(price * quantity);
    }
  }

  lemma Vanishes(x: real)
    ensures 0.0 * x == 0.0 && x * 0.0 == 0.0
  {
  }

  /** A fill that opens or adds: the position grows by the quantity and keeps its cost, and only the charge is paid. */
  lemma OpeningFill(s: State, config: Config, o: Order, fillPrice: real)
    requires Adds(s.position, o.action) && s.position.quantity + o.quantity != 0.0
    ensures var p, after := s.position, FillOrder(s, config, o, fillPrice); var q := after.position;
      var charge := after.charged - s.charged;
      && |after.filled| == |s.filled| + 1 && after.filled[|s.filled|].order == o
      && var price := after.filled[|s.filled|].fillPrice;
      && Slipped(config, o.action, fillPrice, price)
      && ChargedAs(config, p.direction == Flat, o.quantity, fillPrice, charge)
      && after.equity == s.equity - charge && after.trades == s.trades && after.pending == s.pending
      && after.peakEquity == s.peakEquity && after.maxDrawdown == s.maxDrawdown && after.entries == s.entries
      && q.direction == (if o.action == Buy then Long else Short)
      && (p.direction == Flat ==>
            q.quantity == o.quantity && q.avgPrice == price && q.entryName == o.entryName && after.stops == map[]
            && q.lots == [Lot(o.entryName, o.quantity, price)])
      && (p.direction != Flat ==>
            && q.quantity == p.quantity + o.quantity && q.entryName == p.entryName && after.stops == s.stops
            && q.avgPrice * q.quantity == p.avgPrice * p.quantity + price * o.quantity
            && q.lots == p.lots + [Lot(o.entryName, o.quantity, price)])
  {
    AdjustedIsSlipped(config, o.action, fillPrice);
    FillChargeIsChargedAs(config, s.position.direction == Flat, o.quantity, fillPrice);
    var price := AdjustedPrice(config, o.action, fillPrice);
    DivideBack(s.position.avgPrice * s.position.quantity + price * o.quantity, s.position.quantity + o.quantity);
    hide AdjustedPrice, FillCharge, Slipped, ChargedAs;
  }

  /** What the trade of a close says: what was held is closed, as far as the order goes, at a profit less the fees. */
  predicate ClosesAt(config: Config, p: Position, o: Order, price: real, charge: real, t: Trade) {
    var closed := if o.quantity <= p.quantity then o.quantity else p.quantity;
    && t.direction == p.direction && t.entryPrice == p.avgPrice && t.exitPrice == price && t.quantity == closed
    && t.exitName == o.entryName
    && t.commission == (if config.moduleFees then config.moduleFee(p.direction, Times(p.avgPrice, closed)) else charge)
    && t.pnl + t.commission
       == if p.direction == Long then (price - p.avgPrice) * closed else (p.avgPrice - price) * closed
  }

  /**
   * A fill against the position: it closes no more than is held, books one trade, samples the equity before the charge
   * is taken again, and a position closed in full takes its exit orders with it.
   */
  lemma ClosingFill(s: State, config: Config, o: Order, fillPrice: real)
    requires !Adds(s.position, o.action)
    ensures var p, after := s.position, FillOrder(s, config, o, fillPrice);
      var charge := after.charged - s.charged; var left := p.quantity - o.quantity;
      && |after.filled| == |s.filled| + 1 && after.filled[|s.filled|].order == o
      && |after.trades| == |s.trades| + 1 && after.trades[..|s.trades|] == s.trades
      && var price, t := after.filled[|s.filled|].fillPrice, after.trades[|s.trades|];
      && Slipped(config, o.action, fillPrice, price) && ChargedAs(config, false, o.quantity, fillPrice, charge)
      && ClosesAt(config, p, o, price, charge, t)
      && after.equity == s.equity + t.pnl - charge
      && after.peakEquity == Max(s.peakEquity, s.equity + t.pnl)
      && after.maxDrawdown == Max(s.maxDrawdown, after.peakEquity - (s.equity + t.pnl))
      && (left > 0.0 ==>
            && after.position == p.(quantity := left, lots := ReduceLots(p.lots, o.quantity, o.fromEntry))
            && after.pending == s.pending && after.entries == s.entries)
      && (left <= 0.0 ==>
            && after.position == NoPosition && after.entries == 0
            && after.pending == if p.entryName == "" then s.pending
                                else Keep(s.pending, (x: Order) => x.ocaGroup != Some("oca_" + p.entryName)))
  {
    AdjustedIsSlipped(config, o.action, fillPrice);
    FillChargeIsChargedAs(config, false, o.quantity, fillPrice);
    ClosingTrade(s.position, config, o, AdjustedPrice(config, o.action, fillPrice),
                 FillCharge(config, false, o.quantity, fillPrice));
    hide AdjustedPrice, FillCharge, Slipped, ChargedAs, ClosesAt, ReduceLots, Keep, Profit, TradeFees;
  }

  lemma ClosingTrade(p: Position, config: Config, o: Order, price: real, charge: real)
    requires !Adds(p, o.action)
    ensures var t := TradeOf(config, p, Min(o.quantity, p.quantity), price, charge, o.entryName);
      ClosesAt(config, p, o, price, charge, t)
  {
    var closed := if o.quantity <= p.quantity then o.quantity else p.quantity;
    assert Min(o.quantity, p.quantity) == closed;
    var t := TradeOf(config, p, closed, price, charge, o.entryName);
    ClosingProfit(p, price, closed);
    assert t.pnl + t.commission == Profit(p.direction, p.avgPrice, price, closed);
  }

  lemma ClosingProfit(p: Position, price: real, closed: real)
    ensures Profit(p.direction, p.avgPrice, price, closed)
      == if p.direction == Long then (price - p.avgPrice) * closed else (p.avgPrice - price) * closed
  {
  }

  // ----- Admission and quantities -----

  /** A position may be opened, or added to within the pyramiding, when its margin fits into what is free. */
  lemma CanOpenMeaning(s: State, config: Config, side: Side, quantity: real)
    ensures var rate := if side == Long then config.marginLong else config.marginShort;
      var total := s.equity + s.position.unrealizedPnl;
      CanOpen(s, config, side, quantity) <==>
        || (s.position.direction == Flat && s.currentPrice * quantity * rate <= total)
        || (s.position.direction == side && s.entries <= config.pyramiding
            && s.currentPrice * quantity * rate + s.currentPrice * s.position.quantity * rate <= total)
  {
  }

  /** The default quantity: contracts, or worth an amount, or worth percents of the equity, at the current price. */
  lemma DefaultQuantityMeaning(s: State, config: Config)
    ensures var q := DefaultQuantity(s, config);
      match config.defaultQtyType
      case Contracts => q == config.defaultQty
      case Cash => if s.currentPrice > 0.0 then q * s.currentPrice == config.defaultQty else q == 0.0
      case PercentOfEquity =>
        if s.currentPrice > 0.0
        then 100.0 * (q * s.currentPrice) == (s.equity + s.position.unrealizedPnl) * config.defaultQty
        else q == 0.0
  {
    if s.currentPrice > 0.0 {
      DivideBack(config.defaultQty, s.currentPrice);
      DivideBack((s.equity + s.position.unrealizedPnl) * (config.defaultQty / 100.0), s.currentPrice);
      Percents(s.equity + s.position.unrealizedPnl, config.defaultQty);
    }
  }

  // ----- What a request places -----

  /** A stop price and a limit price, where positive, make the kind of an order. */
  predicate KindIs(stopPrice: Option<real>, limitPrice: Option<real>, kind: OrderType) {
    var stop, limit := stopPrice.Some? && stopPrice.value > 0.0, limitPrice.Some? && limitPrice.value > 0.0;
    match kind
    case Market => !stop && !limit
    case Limit => !stop && limit
    case Stop => stop && !limit
    case StopLimit => stop && limit
  }

  /** The order that a request asks for. */
  predicate AsksFor(s: State, config: Config, r: Request, o: Order) {
    && o.action == (if r.side == Long then Buy else Sell) && KindIs(r.stopPrice, r.limitPrice, o.kind)
    && o.quantity == (if r.quantity.Some? then r.quantity.value else DefaultQuantity(s, config))
    && o.price == (if o.kind == Market && r.price == 0.0 then s.currentPrice else r.price)
    && o.stopPrice == r.stopPrice && o.limitPrice == r.limitPrice && o.entryName == r.name
    && o.ocaGroup == None && o.trailPrice == None && o.trailOffset == None && o.fromEntry == ""
  }

  /** A market order that closes the whole position. */
  predicate ClosesAll(s: State, o: Order) {
    && o.action == (if s.position.direction == Long then Sell else Buy) && o.kind == Market
    && o.quantity == s.position.quantity && o.price == s.currentPrice && o.fromEntry == "" && o.ocaGroup == None
  }

  /** One order more is pending, under the next id. */
  predicate Placed(s: State, after: State, orders: nat) {
    && |after.pending| == |s.pending| + orders && after.pending[..|s.pending|] == s.pending
    && after.nextOrderId == s.nextOrderId + orders
    && (forall i :: |s.pending| <= i < |after.pending| ==> after.pending[i].id == s.nextOrderId + 1 + i - |s.pending|)
    && after == s.(pending := after.pending, nextOrderId := after.nextOrderId, entries := after.entries)
  }

  predicate HasPosition(s: State) {
    s.position.direction != Flat && s.position.quantity != 0.0
  }

  /** close places an order for the whole position, if there is one. */
  lemma CloseOutcome(s: State, name: string)
    ensures var after := Closing(s, name);
      if HasPosition(s) then
        Placed(s, after, 1) && ClosesAll(s, after.pending[|s.pending|]) && after.pending[|s.pending|].entryName == name
        && after.entries == s.entries
      else after == s
  {
  }

  /** order places what was asked for, unless a long-only method suppresses a short that closes no long. */
  lemma OrderOutcome(s: State, config: Config, r: Request)
    ensures var after := AfterOrder(s, config, r);
      if config.moduleFees && config.longOnly && r.side == Short && s.position.direction != Long then after == s
      else Placed(s, after, 1) && AsksFor(s, config, r, after.pending[|s.pending|]) && after.entries == s.entries
  {
    hide DefaultQuantity;
  }

  /**
   * entry places what was asked for when it is admitted; against an open position it closes that first; a long-only
   * method turns a short into the close of a long; anything else is refused.
   */
  lemma EntryOutcome(s: State, config: Config, r: Request)
    ensures var after, n := AfterEntry(s, config, r), |s.pending|;
      var quantity := if r.quantity.Some? then r.quantity.value else DefaultQuantity(s, config);
      if config.moduleFees && config.longOnly && r.side == Short then
        if s.position.direction == Long && HasPosition(s)
        then Placed(s, after, 1) && ClosesAll(s, after.pending[n]) && after.entries == s.entries
        else after == s
      else if CanOpen(s, config, r.side, quantity) then
        Placed(s, after, 1) && AsksFor(s, config, r, after.pending[n]) && after.entries == s.entries + 1
      else if s.position.direction != Flat && s.position.direction != r.side then
        if HasPosition(s)
        then Placed(s, after, 2) && ClosesAll(s, after.pending[n]) && AsksFor(s, config, r, after.pending[n + 1])
             && after.entries == s.entries + 1
        else Placed(s, after, 1) && AsksFor(s, config, r, after.pending[n]) && after.entries == s.entries + 1
      else after == s
  {
    hide DefaultQuantity, CanOpen;
  }

  // ----- Exits -----

  /** The lots that one entry holds. */
  function OfEntry(lots: seq<Lot>, entryName: string): (r: seq<Lot>)
    ensures forall lot :: lot in r <==> lot in lots && lot.entryName == entryName
  {
    if lots == [] then []
    else
      var last := lots[|lots| - 1];
      assert lots == lots[..|lots| - 1] + [last];
      OfEntry(lots[..|lots| - 1], entryName) + if last.entryName == entryName then [last] else []
  }

  lemma {:induction false} LotsOfMeaning(lots: seq<Lot>, entryName: string)
    ensures LotsOf(lots, entryName) == SumLots(OfEntry(lots, entryName))
  {
    if lots != [] {
      var m := |lots| - 1;
      LotsOfMeaning(lots[..m], entryName);
      assert OfEntry(lots[..m], entryName) + [] == OfEntry(lots[..m], entryName);
      if lots[m].entryName == entryName {
        assert OfEntry(lots, entryName)[..|OfEntry(lots, entryName)| - 1] == OfEntry(lots[..m], entryName);
      }
    }
  }

  /** What an exit from an open position trades: all or what was asked for, of the position or of the entry it names. */
  lemma ExitOfPosition(s: State, r: ExitRequest)
    requires s.position.direction != Flat && s.position.quantity > 0.0
    ensures var p, asked := s.position, if r.quantity.Some? then r.quantity.value else s.position.quantity;
      var exit := ExitTarget(s, r); var held := SumLots(OfEntry(p.lots, r.fromEntry));
      if r.fromEntry == "" || p.lots == [] then
        exit == Some((if p.direction == Long then Sell else Buy, if asked <= p.quantity then asked else p.quantity))
      else if held <= 0.0 then exit == None
      else
        && exit.Some? && exit.value.0 == (if p.direction == Long then Sell else Buy)
        && exit.value.1 == if asked == p.quantity || held <= asked then held else asked
  {
    LotsOfMeaning(s.position.lots, r.fromEntry);
    hide LotsOf, OfEntry, SumLots, FirstMarket;
  }

  /** Without a position, or with an empty one, an exit is for the entry that is the first market order pending. */
  lemma ExitOfPending(s: State, r: ExitRequest, i: nat)
    requires s.position.direction == Flat || s.position.quantity <= 0.0
    requires i <= |s.pending| && forall k :: 0 <= k < i ==> s.pending[k].kind != Market
    requires i < |s.pending| ==> s.pending[i].kind == Market
    ensures var asked := if r.quantity.Some? then r.quantity.value else s.position.quantity;
      if i == |s.pending| then ExitTarget(s, r) == None
      else
        ExitTarget(s, r) == Some((if s.pending[i].action == Buy then Sell else Buy,
                                  if asked == 0.0 then s.pending[i].quantity else asked))
  {
    FirstMarketIs(s.pending, i);
    hide LotsOf;
  }

  lemma {:induction false} FirstMarketIs(orders: seq<Order>, i: nat)
    requires i <= |orders| && forall k :: 0 <= k < i ==> orders[k].kind != Market
    requires i < |orders| ==> orders[i].kind == Market
    ensures FirstMarket(orders) == if i == |orders| then None else Some(orders[i])
  {
    if i > 0 {
      assert forall k :: 0 <= k < i - 1 ==> orders[1..][k] == orders[k + 1];
      FirstMarketIs(orders[1..], i - 1);
    }
  }

  /** The order of an exit: a trail without a price makes a stop, and resting exits of a position form one group. */
  predicate ExitsWith(s: State, r: ExitRequest, action: Action, quantity: real, o: Order) {
    var byPrice, byOffset := r.trailPrice.GetOr(0.0) > 0.0, r.trailOffset.GetOr(0.0) > 0.0;
    && o.action == action && o.quantity == quantity && o.fromEntry == r.fromEntry && o.entryName == r.name
    && (KindIs(r.stopPrice, r.limitPrice, o.kind) || (KindIs(r.stopPrice, r.limitPrice, Market) && o.kind == Stop))
    && (KindIs(r.stopPrice, r.limitPrice, Market) ==> o.kind == if byPrice || byOffset then Stop else Market)
    && o.stopPrice == r.stopPrice && o.limitPrice == r.limitPrice
    && o.trailPrice == r.trailPrice && o.trailOffset == r.trailOffset
    && o.price == (if o.kind == Market && r.price == 0.0 then s.currentPrice else r.price)
    && o.ocaGroup
       == if o.kind != Market && s.position.direction != Flat then Some("oca_" + s.position.entryName) else None
  }

  /** An exit with a price rests, and one at market fills at once. */
  lemma ExitOutcome(s: State, config: Config, r: ExitRequest)
    ensures var after := AfterExit(s, config, r); var target := ExitTarget(s, r);
      if target.None? then after == s
      else
        exists o: Order ::
          && o.id == s.nextOrderId + 1 && ExitsWith(s, r, target.value.0, target.value.1, o)
          && after == if o.kind == Market then FillOrder(s.(nextOrderId := o.id), config, o, o.price)
                      else s.(nextOrderId := o.id, pending := s.pending + [o])
  {
    var target := ExitTarget(s, r);
    if target.Some? {
      var o := ExitOrder(s, r, target.value.0, target.value.1);
      assert ExitsWith(s, r, target.value.0, target.value.1, o);
      hide ExitTarget, ExitOrder, ExitsWith, FillOrder;
    }
  }

  // ----- Cancelling, liquidation, trailing -----

  lemma {:induction false} KeepAll(orders: seq<Order>, p: Order -> bool)
    requires forall o :: o in orders ==> p(o)
    ensures Keep(orders, p) == orders
  {
    if orders != [] {
      var m := |orders| - 1;
      assert orders == orders[..m] + [orders[m]];
      KeepAll(orders[..m], p);
    }
  }

  lemma {:induction false} KeepConcat(a: seq<Order>, b: seq<Order>, p: Order -> bool)
    ensures Keep(a + b, p) == Keep(a, p) + Keep(b, p)
  {
    if b == [] {
      assert a + b == a;
    } else {
      var m := |b| - 1;
      assert (a + b)[..|a + b| - 1] == a + b[..m];
      KeepConcat(a, b[..m], p);
    }
  }

  /** cancel takes the order with the id out, and nothing else. */
  lemma CancelOutcome(s: State, id: OrderId)
    requires DistinctIds(s.pending)
    ensures AfterCancel(s, id) == s.(pending := Keep(s.pending, (o: Order) => o.id != id))
  {
    var others := (o: Order) => o.id != id;
    var i := FindOrder(s.pending, id);
    hide Keep, FindOrder;
    if i.None? {
      KeepAll(s.pending, others);
    } else {
      var before, after := s.pending[..i.value], s.pending[i.value + 1..];
      assert s.pending == before + [s.pending[i.value]] + after;
      KeepConcat(before + [s.pending[i.value]], after, others);
      KeepConcat(before, [s.pending[i.value]], others);
      KeepAll(before, others);
      KeepAll(after, others);
      KeepOne(s.pending[i.value], others);
    }
  }

  /** A bar ends with a close order exactly when the equity is below the margin that the position needs. */
  lemma LiquidationOutcome(s: State, config: Config)
    ensures var rate := if s.position.direction == Long then config.marginLong else config.marginShort;
      var after := CheckLiquidation(s, config);
      if HasPosition(s) && rate > 0.0
         && s.equity + s.position.unrealizedPnl < s.currentPrice * s.position.quantity * rate
      then Placed(s, after, 1) && ClosesAll(s, after.pending[|s.pending|])
      else after == s
  {
  }

  /** Restoring brings back everything that had been saved but the order counter and the price, which stay. */
  lemma RestoreOutcome(config: Config, ops: seq<Op>, k: nat)
    requires k <= |ops|
    ensures var saved, before := Run(config, ops[..k]), Run(config, ops);
      var after := Run(config, ops + [Restore(k)]);
      && after.nextOrderId == before.nextOrderId && after.currentPrice == before.currentPrice
      && saved == after.(nextOrderId := saved.nextOrderId, currentPrice := saved.currentPrice)
  {
    var all := ops + [Restore(k)];
    assert all[..|all| - 1] == ops && all[..k] == ops[..k];
    hide Next;
  }

  /** A bar moves the trailing stops as one more bar of the price history does. */
  lemma BarTrails(s: State, b: Bar)
    ensures var bars := [Extremes(b.high, b.low, b.close)];
      (Trail(s, b).pending, Trail(s, b).stops)
        == UpdateBars(s.pending, s.stops, s.position.direction, s.position.avgPrice, bars)
    ensures Trail(s, b) == s.(pending := Trail(s, b).pending, stops := Trail(s, b).stops)
  {
    var bars := [Extremes(b.high, b.low, b.close)];
    assert bars[..0] == [];
    hide UpdateAll;
  }

  /** The order of events in a bar, and its end: marked to market at the close, then checked for liquidation. */
  lemma BarEnds(s: State, config: Config, b: Bar)
    ensures var moved := ProcessPending(Trail(FillMarketOrders(s.(currentPrice := b.close), config, b), b), config, b);
      exists marked: State ::
        && AfterBar(s, config, b) == CheckLiquidation(marked, config) && marked.currentPrice == b.close
        && (moved.position.direction == Flat ==> marked == moved)
        && (moved.position.direction != Flat ==>
              && marked.position == moved.position.(unrealizedPnl := marked.position.unrealizedPnl)
              && marked.position.unrealizedPnl
                 == (if moved.position.direction == Long then b.close - moved.position.avgPrice
                     else moved.position.avgPrice - b.close) * moved.position.quantity
              && marked.peakEquity == Max(moved.peakEquity, moved.equity + marked.position.unrealizedPnl)
              && marked.maxDrawdown
                 == Max(moved.maxDrawdown, marked.peakEquity - (moved.equity + marked.position.unrealizedPnl)))
  {
    var moved := ProcessPending(Trail(FillMarketOrders(s.(currentPrice := b.close), config, b), b), config, b);
    var marked := MarkToMarket(moved, b.close);
    PricesStay(s, config, b);
    hide FillMarketOrders, Trail, ProcessPending, CheckLiquidation;
    assert AfterBar(s, config, b) == CheckLiquidation(marked, config);
  }

  lemma {:induction false} FillsKeepPrice(s: State, config: Config, orders: seq<Order>, price: real)
    ensures FillAll(s, config, orders, price).currentPrice == s.currentPrice
    ensures FillHits(s, config, orders).currentPrice == s.currentPrice
  {
    if orders != [] {
      FillsKeepPrice(s, config, orders[..|orders| - 1], price);
    }
    hide FillCharge, AdjustedPrice, TradeOf, Reduced, OpenOrAdd, Keep, Min, TriggerPrice;
  }

  lemma {:induction false} TriggersKeepPrice(s: State, config: Config, orders: seq<Order>, b: Bar)
    ensures TriggerAll(s, config, orders, b).currentPrice == s.currentPrice
  {
    if orders != [] {
      TriggersKeepPrice(s, config, orders[..|orders| - 1], b);
    }
    hide FillCharge, AdjustedPrice, TradeOf, Reduced, OpenOrAdd, Keep, Min, LimitHit;
  }

  lemma PricesStay(s: State, config: Config, b: Bar)
    ensures ProcessPending(Trail(FillMarketOrders(s.(currentPrice := b.close), config, b), b), config, b).currentPrice
      == b.close
  {
    var priced := s.(currentPrice := b.close);
    var market := Keep(s.pending, (o: Order) => o.kind == Market);
    FillsKeepPrice(priced.(pending := Keep(s.pending, (o: Order) => o.kind != Market)), config, market,
                   MarketFillPrice(config, b));
    var trailed := Trail(FillMarketOrders(priced, config, b), b);
    var hits := Keep(trailed.pending, (o: Order) => Hit(o, b));
    var triggers := Keep(trailed.pending, (o: Order) => Triggered(o, b));
    var rest := trailed.(pending := Keep(trailed.pending, (o: Order) => !Hit(o, b) && !Triggered(o, b)));
    FillsKeepPrice(rest, config, hits, 0.0);
    TriggersKeepPrice(FillHits(rest, config, hits), config, triggers, b);
    hide FillAll, FillHits, TriggerAll, Keep, Hit, Triggered, UpdateAll, MarketFillPrice;
  }
}
