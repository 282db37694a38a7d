/** What the operations of the backtest engine do, each law stated on its effect (src/strategy/strategy-engine.ts). */
module OrderLaws {
  import opened Arithmetic
  import opened Prelude
  import opened Orders
  import opened TrailingStop
  import opened Positions
  import opened CashLedger
  import opened StrategyEngine

  // ----- At which price orders fill -----

  /** The price that a mode takes from a bar. */
  predicate TakenFrom(mode: FillPriceMode, b: Bar, price: real) {
    match mode
    case AtOpen => price == b.open
    case AtClose => price == b.close
    case AtHigh => price == b.high
    case AtLow => price == b.low
    case Ohlc4 => 4.0 * price == b.open + b.high + b.low + b.close
  }

  /** A buyer pays the slippage on top, a seller gives it away: a fixed amount, or percents of the price. */
  predicate Slipped(config: Config, action: Action, price: real, filled: real) {
    var against := if action == Buy then filled - price else price - filled;
    if config.slippageInTicks then against == config.slippage else 100.0 * against == price * config.slippage
  }

  lemma AdjustedIsSlipped(config: Config, action: Action, price: real)
    ensures Slipped(config, action, price, AdjustedPrice(config, action, price))
  {
    Percents(price, config.slippage);
  }

  lemma Percents(a: real, b: real)
    ensures a * (b / 100.0) * 100.0 == a * b
  {
  }

  lemma {:induction false} FillAllFills(s: State, config: Config, orders: seq<Order>, price: real, k: nat)
    ensures var filled := FillAll(s, config, orders, price).filled;
      && |filled| == |s.filled| + |orders| && filled[..|s.filled|] == s.filled
      && (k < |orders| ==>
            filled[|s.filled| + k].order == orders[k]
            && Slipped(config, orders[k].action, price, filled[|s.filled| + k].fillPrice))
  {
    if orders != [] {
      var m := |orders| - 1;
      FillAllFills(s, config, orders[..m], price, k);
      FillEffect(FillAll(s, config, orders[..m], price), config, orders[m], price);
      AdjustedIsSlipped(config, orders[m].action, price);
      hide FillOrder, AdjustedPrice, Slipped, Keep;
    }
  }

  /** Fills are only added. */
  predicate FillsKept(s: State, later: State) {
    |s.filled| <= |later.filled| && later.filled[..|s.filled|] == s.filled
  }

  lemma {:induction false} HitsKeepFills(s: State, config: Config, orders: seq<Order>)
    ensures FillsKept(s, FillHits(s, config, orders))
  {
    if orders != [] {
      var m := |orders| - 1;
      HitsKeepFills(s, config, orders[..m]);
      FillEffect(FillHits(s, config, orders[..m]), config, orders[m], TriggerPrice(orders[m]));
      hide FillOrder, AdjustedPrice, Keep;
    }
  }

  lemma {:induction false} TriggersKeepFills(s: State, config: Config, orders: seq<Order>, b: Bar)
    ensures FillsKept(s, TriggerAll(s, config, orders, b))
  {
    if orders != [] {
      var m := |orders| - 1;
      var o := orders[m];
      TriggersKeepFills(s, config, orders[..m], b);
      FillEffect(TriggerAll(s, config, orders[..m], b), config, o, o.limitPrice.GetOr(o.price));
      hide FillOrder, AdjustedPrice, Keep, LimitHit;
    }
  }

  lemma PendingKeepFills(s: State, config: Config, b: Bar)
    ensures FillsKept(s, ProcessPending(s, config, b))
  {
    var hits := Keep(s.pending, (o: Order) => Hit(o, b));
    var triggers := Keep(s.pending, (o: Order) => Triggered(o, b));
    var rest := s.(pending := Keep(s.pending, (o: Order) => !Hit(o, b) && !Triggered(o, b)));
    HitsKeepFills(rest, config, hits);
    TriggersKeepFills(FillHits(rest, config, hits), config, triggers, b);
    hide FillHits, TriggerAll, Keep, Hit, Triggered;
  }

  lemma BarKeepsFills(s: State, config: Config, b: Bar)
    ensures FillsKept(FillMarketOrders(s.(currentPrice := b.close), config, b), AfterBar(s, config, b))
  {
    var market := FillMarketOrders(s.(currentPrice := b.close), config, b);
    PendingKeepFills(Trail(market, b), config, b);
    hide FillMarketOrders, ProcessPending, UpdateAll, Times, OpenProfit, MarginRate;
  }

  /**
   * A bar fills every pending market order, in their order and before anything else, at the price that the mode takes
   * from the bar, moved against the order by the slippage.
   */
  lemma MarketOrdersFill(s: State, config: Config, b: Bar, k: nat)
    requires k < |Keep(s.pending, (o: Order) => o.kind == Market)|
    ensures var market, filled := Keep(s.pending, (o: Order) => o.kind == Market), AfterBar(s, config, b).filled;
      && |s.filled| + |market| <= |filled| && filled[..|s.filled|] == s.filled
      && filled[|s.filled| + k].order == market[k]
      && exists price :: TakenFrom(config.marketFillPrice, b, price)
                      && Slipped(config, market[k].action, price, filled[|s.filled| + k].fillPrice)
  {
    hide FillAll, AfterBar, Keep, Slipped, Trail, ProcessPending;
    var market := Keep(s.pending, (o: Order) => o.kind == Market);
    var price := MarketFillPrice(config, b);
    assert TakenFrom(config.marketFillPrice, b, price);
    var rest := s.(currentPrice := b.close, pending := Keep(s.pending, (o: Order) => o.kind != Market));
    FillAllFills(rest, config, market, price, k);
    BarKeepsFills(s, config, b);
    var first := FillAll(rest, config, market, price);
    assert first == FillMarketOrders(s.(currentPrice := b.close), config, b);
    hide MarketFillPrice, TakenFrom, FillMarketOrders;
    StillFilled(s.filled, first.filled, AfterBar(s, config, b).filled, |s.filled| + k);
  }

  lemma StillFilled(before: seq<Fill>, first: seq<Fill>, filled: seq<Fill>, i: nat)
    requires |before| <= |first| <= |filled| && first[..|before|] == before && filled[..|first|] == first
    ensures filled[..|before|] == before && (i < |first| ==> filled[i] == first[i])
  {
    assert filled[..|first|][..|before|] == filled[..|before|];
    assert i < |first| ==> filled[..|first|][i] == filled[i];
  }

  /** In mode open the market fills of a bar depend on nothing of it but the open. */
  lemma NoLookAhead(s: State, config: Config, b: Bar, c: Bar)
    requires config.marketFillPrice == AtOpen && b.open == c.open
    ensures var n := |s.filled| + |Keep(s.pending, (o: Order) => o.kind == Market)|;
      && n <= |AfterBar(s, config, b).filled| && n <= |AfterBar(s, config, c).filled|
      && AfterBar(s, config, b).filled[..n] == AfterBar(s, config, c).filled[..n]
  {
    hide AfterBar, Keep, Slipped;
    var market := Keep(s.pending, (o: Order) => o.kind == Market);
    var n := |s.filled| + |market|;
    BarFillCount(s, config, b);
    BarFillCount(s, config, c);
    var x, y := AfterBar(s, config, b).filled, AfterBar(s, config, c).filled;
    forall i | 0 <= i < n
      ensures x[i] == y[i]
    {
      if i < |s.filled| {
        assert x[..|s.filled|][i] == y[..|s.filled|][i];
      } else {
        MarketOrdersFill(s, config, b, i - |s.filled|);
        MarketOrdersFill(s, config, c, i - |s.filled|);
        SlippedOnce(config, x[i].order.action, b.open, x[i].fillPrice, y[i].fillPrice);
      }
    }
  }

  lemma SlippedOnce(config: Config, action: Action, price: real, x: real, y: real)
    requires Slipped(config, action, price, x) && Slipped(config, action, price, y)
    ensures x == y
  {
  }

  lemma BarFillCount(s: State, config: Config, b: Bar)
    ensures var n := |s.filled| + |Keep(s.pending, (o: Order) => o.kind == Market)|;
      n <= |AfterBar(s, config, b).filled| && AfterBar(s, config, b).filled[..|s.filled|] == s.filled
  {
    var market := Keep(s.pending, (o: Order) => o.kind == Market);
    var rest := s.(currentPrice := b.close, pending := Keep(s.pending, (o: Order) => o.kind != Market));
    var first := FillAll(rest, config, market, MarketFillPrice(config, b));
    FillAllFills(rest, config, market, MarketFillPrice(config, b), |market|);
    BarKeepsFills(s, config, b);
    assert first == FillMarketOrders(s.(currentPrice := b.close), config, b);
    hide FillAll, AfterBar, Keep, MarketFillPrice, FillMarketOrders;
    assert AfterBar(s, config, b).filled[..|first.filled|][..|s.filled|] == AfterBar(s, config, b).filled[..|s.filled|];
  }

  // ----- Limit, stop and stop-limit orders -----

  /** The price that a limit or a stop order names. */
  function Named(o: Order): real {
    match o.kind
    case Limit => if o.limitPrice.Some? then o.limitPrice.value else o.price
    case _ => if o.stopPrice.Some? then o.stopPrice.value else o.price
  }

  /** The bar goes at least as far as the price: down for a limit to buy or a stop to sell, up for the others. */
  predicate Reaches(b: Bar, o: Order) {
    if (o.kind == Limit && o.action == Buy) || (o.kind != Limit && o.action == Sell) then b.low <= Named(o)
    else b.high >= Named(o)
  }

  predicate Reached(o: Order, b: Bar) {
    (o.kind == Limit || o.kind == Stop) && Reaches(b, o)
  }

  lemma HitIsReached(o: Order, b: Bar)
    ensures Hit(o, b) <==> Reached(o, b)
    ensures Triggered(o, b) <==> o.kind == StopLimit && Reaches(b, o)
    ensures o.kind == Limit || o.kind == Stop ==> TriggerPrice(o) == Named(o)
  {
  }

  lemma {:induction false} KeepSame(orders: seq<Order>, p: Order -> bool, q: Order -> bool)
    requires forall o :: p(o) <==> q(o)
    ensures Keep(orders, p) == Keep(orders, q)
  {
    if orders != [] {
      KeepSame(orders[..|orders| - 1], p, q);
    }
  }

  lemma {:induction false} HitsFill(s: State, config: Config, orders: seq<Order>, k: nat)
    requires forall o :: o in orders ==> o.kind == Limit || o.kind == Stop
    ensures var filled := FillHits(s, config, orders).filled;
      && |filled| == |s.filled| + |orders| && filled[..|s.filled|] == s.filled
      && (k < |orders| ==>
            filled[|s.filled| + k].order == orders[k]
            && Slipped(config, orders[k].action, Named(orders[k]), filled[|s.filled| + k].fillPrice))
  {
    hide FillOrder, CancelSiblings, AdjustedPrice, Slipped, Hit, Triggered, TriggerPrice, Named;
    if orders != [] {
      var m := |orders| - 1;
      assert orders[m] in orders;
      HitsFill(s, config, orders[..m], k);
      HitIsReached(orders[m], Bar(0.0, 0.0, 0.0, 0.0));
      var before, price := FillHits(s, config, orders[..m]), TriggerPrice(orders[m]);
      FillEffect(before, config, orders[m], price);
      AdjustedIsSlipped(config, orders[m].action, price);
      SiblingsKeepFills(FillOrder(before, config, orders[m], price), orders[m]);
    }
  }

  lemma SiblingsKeepFills(s: State, o: Order)
    ensures CancelSiblings(s, o).filled == s.filled
  {
  }

  /** A bar first fills what it reaches of the pending orders; what it fills then comes after. */
  lemma ReachedComeFirst(s: State, config: Config, b: Bar)
    ensures var rest := s.(pending := Keep(s.pending, (o: Order) => !Hit(o, b) && !Triggered(o, b)));
      FillsKept(FillHits(rest, config, Keep(s.pending, (o: Order) => Reached(o, b))), ProcessPending(s, config, b))
  {
    forall o: Order
      ensures Hit(o, b) <==> Reached(o, b)
    {
      HitIsReached(o, b);
    }
    hide Hit, Reached, Triggered, FillHits, TriggerAll, Keep, FillsKept;
    var hit := (o: Order) => Hit(o, b);
    KeepSame(s.pending, hit, (o: Order) => Reached(o, b));
    var rest := s.(pending := Keep(s.pending, (o: Order) => !Hit(o, b) && !Triggered(o, b)));
    TriggersKeepFills(FillHits(rest, config, Keep(s.pending, hit)), config,
                      Keep(s.pending, (o: Order) => Triggered(o, b)), b);
  }

  /** The pending orders that a bar reaches all fill, in their order, at the price they name, moved by the slippage. */
  lemma ReachedOrdersFill(s: State, config: Config, b: Bar, k: nat)
    requires k < |Keep(s.pending, (o: Order) => Reached(o, b))|
    ensures var reached, filled := Keep(s.pending, (o: Order) => Reached(o, b)), ProcessPending(s, config, b).filled;
      && |s.filled| + |reached| <= |filled| && filled[..|s.filled|] == s.filled
      && filled[|s.filled| + k].order == reached[k]
      && Slipped(config, reached[k].action, Named(reached[k]), filled[|s.filled| + k].fillPrice)
  {
    hide Hit, Reached, Triggered, Slipped, Named, Keep, FillHits, ProcessPending;
    var hits := Keep(s.pending, (o: Order) => Reached(o, b));
    var rest := s.(pending := Keep(s.pending, (o: Order) => !Hit(o, b) && !Triggered(o, b)));
    ReachedComeFirst(s, config, b);
    KeepMeaning(s.pending, (o: Order) => Reached(o, b));
    ReachedKinds(hits, b);
    HitsFill(rest, config, hits, k);
    StillFilled(s.filled, FillHits(rest, config, hits).filled, ProcessPending(s, config, b).filled, |s.filled| + k);
  }

  lemma ReachedKinds(orders: seq<Order>, b: Bar)
    requires forall o :: o in orders ==> Reached(o, b)
    ensures forall o :: o in orders ==> o.kind == Limit || o.kind == Stop
  {
  }

  /**
   * A pending stop-limit order waits until the bar reaches its stop; then it fills at its limit, if the bar reaches
   * that too, and otherwise waits on as a limit order with a new id.
   */
  lemma StopLimitOutcome(s: State, config: Config, o: Order, b: Bar)
    requires s.pending == [o] && o.kind == StopLimit && o.limitPrice.Some? && o.stopPrice.Some? && o.ocaGroup.None?
    ensures var after := ProcessPending(s, config, b); var limit := o.limitPrice.value;
      var stopped := if o.action == Buy then b.high >= o.stopPrice.value else b.low <= o.stopPrice.value;
      var reached := if o.action == Buy then b.low <= limit else b.high >= limit;
      && (!stopped ==> after == s)
      && (stopped && reached ==>
            after.pending == [] && |after.filled| == |s.filled| + 1 && after.filled[|s.filled|].order == o
            && Slipped(config, o.action, limit, after.filled[|s.filled|].fillPrice))
      && (stopped && !reached ==>
            after.filled == s.filled && after.nextOrderId == s.nextOrderId + 1
            && after.pending == [o.(id := s.nextOrderId + 1, kind := Limit, price := limit, stopPrice := None)])
  {
    var bare := s.(pending := []);
    StopLimitAlone(s, config, o, b);
    HitIsReached(o, b);
    FillEffect(bare, config, o, o.limitPrice.value);
    KeepNone((x: Order) => x.ocaGroup != Some(OcaGroup(bare.position.entryName)));
    AdjustedIsSlipped(config, o.action, o.limitPrice.value);
    hide ProcessPending, Keep, FillOrder, AdjustedPrice, Slipped, Triggered;
  }

  lemma StopLimitAlone(s: State, config: Config, o: Order, b: Bar)
    requires s.pending == [o] && o.kind == StopLimit
    ensures ProcessPending(s, config, b)
      == if Triggered(o, b) then TriggerOne(s.(pending := []), config, o, b) else s
  {
    hide Keep, FillHits, TriggerAll, TriggerOne, StopHit;
    KeepOne(o, (x: Order) => Hit(x, b));
    KeepOne(o, (x: Order) => Triggered(x, b));
    KeepOne(o, (x: Order) => !Hit(x, b) && !Triggered(x, b));
    var bare := s.(pending := []);
    assert s.(pending := [o]) == s;
    NothingToFill(bare, config, b);
    NothingToFill(s, config, b);
    TriggeredAlone(bare, config, o, b);
  }

  lemma NothingToFill(s: State, config: Config, b: Bar)
    ensures FillHits(s, config, []) == s && TriggerAll(s, config, [], b) == s
  {
  }

  lemma TriggeredAlone(s: State, config: Config, o: Order, b: Bar)
    ensures TriggerAll(s, config, [o], b) == TriggerOne(s, config, o, b)
  {
    hide TriggerOne;
    assert [o][..0] == [];
  }

  // ----- Which orders a bar leaves pending -----

  /** Pending orders are only dropped, those outside any group never, and the order counter stays. */
  ghost predicate OnlyDrops(s: State, later: State) {
    && (forall x :: x in later.pending ==> x in s.pending)
    && (forall x :: x in s.pending && x.ocaGroup.None? ==> x in later.pending)
    && later.nextOrderId == s.nextOrderId
  }

  lemma FillDrops(s: State, config: Config, o: Order, price: real)
    ensures OnlyDrops(s, FillOrder(s, config, o, price))
  {
    FillEffect(s, config, o, price);
    KeepMeaning(s.pending, (x: Order) => x.ocaGroup != Some(OcaGroup(s.position.entryName)));
    hide FillOrder, AdjustedPrice, Keep;
  }

  lemma SiblingsDrop(s: State, o: Order)
    ensures OnlyDrops(s, CancelSiblings(s, o))
    ensures o.ocaGroup.Some? ==> forall x :: x in CancelSiblings(s, o).pending ==> x.ocaGroup != o.ocaGroup
  {
    if o.ocaGroup.Some? {
      KeepMeaning(s.pending, (x: Order) => x.ocaGroup != Some(o.ocaGroup.value));
    }
    hide Keep;
  }

  lemma {:induction false} HitsDrop(s: State, config: Config, orders: seq<Order>)
    ensures OnlyDrops(s, FillHits(s, config, orders))
    ensures forall o, x :: o in orders && o.ocaGroup.Some? && x in FillHits(s, config, orders).pending ==>
      x.ocaGroup != o.ocaGroup
  {
    hide FillOrder, CancelSiblings, TriggerPrice;
    if orders != [] {
      var m := |orders| - 1;
      assert orders == orders[..m] + [orders[m]];
      var before := FillHits(s, config, orders[..m]);
      var filled := FillOrder(before, config, orders[m], TriggerPrice(orders[m]));
      HitsDrop(s, config, orders[..m]);
      FillDrops(before, config, orders[m], TriggerPrice(orders[m]));
      SiblingsDrop(filled, orders[m]);
    }
  }

  /** Triggered stop-limit orders only drop pending orders too, but those that wait on come back with a new id. */
  lemma {:induction false} TriggersDrop(s: State, config: Config, orders: seq<Order>, b: Bar)
    ensures var later := TriggerAll(s, config, orders, b);
      && (forall x :: x in later.pending ==> x in s.pending || x.id > s.nextOrderId)
      && (forall x :: x in s.pending && x.ocaGroup.None? ==> x in later.pending)
      && later.nextOrderId >= s.nextOrderId
  {
    hide FillOrder, CancelSiblings, LimitHit;
    if orders != [] {
      var m := |orders| - 1;
      var before, price := TriggerAll(s, config, orders[..m], b), orders[m].limitPrice.GetOr(orders[m].price);
      TriggersDrop(s, config, orders[..m], b);
      FillDrops(before, config, orders[m], price);
      SiblingsDrop(FillOrder(before, config, orders[m], price), orders[m]);
    }
  }

  /**
   * A bar that reaches an order leaves nothing of its group pending but stop-limit orders that it converted, under new
   * ids; and every order that it does not reach waits on if it belongs to no group.
   */
  lemma GroupsAreCancelled(s: State, config: Config, b: Bar)
    ensures var after := ProcessPending(s, config, b);
      && (forall o, x ::
            && o in s.pending && Reached(o, b) && o.ocaGroup.Some?
            && x in after.pending && x.ocaGroup == o.ocaGroup
            ==> x.id > s.nextOrderId)
      && (forall x ::
            && x in s.pending && x.ocaGroup.None?
            && !Reached(x, b) && !(x.kind == StopLimit && Reaches(b, x))
            ==> x in after.pending)
  {
    forall o: Order
      ensures Hit(o, b) <==> Reached(o, b)
      ensures Triggered(o, b) <==> o.kind == StopLimit && Reaches(b, o)
    {
      HitIsReached(o, b);
    }
    hide Hit, Reached, Triggered, Reaches;
    var hit, triggered := (o: Order) => Hit(o, b), (o: Order) => Triggered(o, b);
    var waiting := (o: Order) => !Hit(o, b) && !Triggered(o, b);
    KeepMeaning(s.pending, hit);
    KeepMeaning(s.pending, waiting);
    var hits, rest := Keep(s.pending, hit), s.(pending := Keep(s.pending, waiting));
    hide Keep, FillHits, TriggerAll;
    HitsDrop(rest, config, hits);
    TriggersDrop(FillHits(rest, config, hits), config, Keep(s.pending, triggered), b);
  }
}
