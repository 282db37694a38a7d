/** Orders and directions (src/strategy/strategy-types.ts), without the display fields. */
module Orders {
  import opened Prelude

  datatype Direction = Long | Short | Flat

  datatype Action = Buy | Sell

  datatype OrderType = Market | Limit | Stop | StopLimit

  type OrderId = nat

  datatype Order = Order(
    id: OrderId, action: Action, kind: OrderType, quantity: real, price: real,
    stopPrice: Option<real>, limitPrice: Option<real>, entryName: string, ocaGroup: Option<string>,
    trailPrice: Option<real>, trailOffset: Option<real>, fromEntry: string)

  predicate Positive(x: Option<real>) {
    x.Some? && x.value > 0.0
  }
}

/** Trailing stops (src/strategy/trailing-stop-manager.ts). */
module TrailingStop {
  import opened Prelude
  import opened Orders

  const MINTICK := 0.01

  datatype TrailState = TrailState(trailOffset: Option<real>, trailPrice: Option<real>,
                                   highestPrice: real, stopPrice: real, isActivated: bool)

  /** The bar and position data that one update sees. */
  datatype Tick = Tick(direction: Direction, avgPrice: real, high: real, low: real, currentPrice: real)

  /** `toward` the profitable side: up for a long position, down otherwise. */
  function Toward(t: Tick, price: real, distance: real): real {
    if t.direction == Long then price + distance else price - distance
  }

  function Away(t: Tick, price: real, distance: real): real {
    if t.direction == Long then price - distance else price + distance
  }

  /** The state of an order seen for the first time, if it has a usable trail. */
  function InitialState(order: Order, t: Tick): Option<TrailState> {
    if Positive(order.trailOffset) then
      var d := order.trailOffset.value * MINTICK;
      Some(TrailState(order.trailOffset, order.trailPrice, t.avgPrice, Away(t, Toward(t, t.avgPrice, d), d), false))
    else if Positive(order.trailPrice) then
      var d := order.trailPrice.value;
      Some(TrailState(order.trailOffset, order.trailPrice, t.avgPrice, Away(t, Toward(t, t.avgPrice, d), d), false))
    else None
  }

  function ActivationDistance(s: TrailState): real {
    if s.trailOffset.Some? then s.trailOffset.value * MINTICK else s.trailPrice.GetOr(0.0)
  }

  /** Activate once the bar's extreme reaches the activation price. */
  function Activated(s: TrailState, t: Tick): TrailState {
    var activation := Toward(t, t.avgPrice, ActivationDistance(s));
    if s.isActivated then s
    else if t.direction == Long && t.high >= activation then s.(isActivated := true, highestPrice := t.high)
    else if t.direction != Long && t.low <= activation then s.(isActivated := true, highestPrice := t.low)
    else s
  }

  /** Follow the best price seen. */
  function Extended(s: TrailState, t: Tick): TrailState {
    if t.direction == Long && t.high > s.highestPrice then s.(highestPrice := t.high)
    else if t.direction != Long && t.low < s.highestPrice then s.(highestPrice := t.low)
    else s
  }

  function NewStop(s: TrailState, t: Tick): Option<real> {
    if Positive(s.trailOffset) then Some(Away(t, s.highestPrice, s.trailOffset.value * MINTICK))
    else if Positive(s.trailPrice) then Some(Away(t, t.currentPrice, s.trailPrice.value))
    else None
  }

  predicate Improved(t: Tick, newStop: real, stop: real) {
    if t.direction == Long then newStop > stop else newStop < stop
  }

  /** One order's update: its new form and its new state. */
  function UpdateOne(order: Order, state: Option<TrailState>, t: Tick): (Order, Option<TrailState>) {
    if order.trailOffset.None? && order.trailPrice.None? then (order, state)
    else
      var started := if state.Some? then state else InitialState(order, t);
      if started.None? then (order, None)
      else
        var s := Activated(started.value, t);
        if !s.isActivated then (order, Some(s))
        else
          var e := Extended(s, t);
          var newStop := NewStop(e, t);
          if newStop.Some? && Improved(t, newStop.value, e.stopPrice) then
            (order.(stopPrice := newStop), Some(e.(stopPrice := newStop.value)))
          else (order, Some(e))
  }

  type Stops = map<OrderId, TrailState>

  function Lookup(stops: Stops, id: OrderId): Option<TrailState> {
    if id in stops then Some(stops[id]) else None
  }

  function Store(stops: Stops, id: OrderId, state: Option<TrailState>): Stops {
    if state.Some? then stops[id := state.value] else stops
  }

  /** All orders, in list order, each seeing the states left by the ones before it. */
  function UpdateAll(orders: seq<Order>, stops: Stops, t: Tick): (r: (seq<Order>, Stops))
    ensures |r.0| == |orders|
  {
    if orders == [] then ([], stops)
    else
      var m := |orders| - 1;
      var (front, before) := UpdateAll(orders[..m], stops, t);
      var (order, state) := UpdateOne(orders[m], Lookup(before, orders[m].id), t);
      (front + [order], Store(before, orders[m].id, state))
  }

  class TrailingStopManager {
    var trailingStops: Stops

    constructor ()
      ensures trailingStops == map[]
    {
      trailingStops := map[];
    }

    method Clear()
      modifies this
      ensures trailingStops == map[]
    {
      trailingStops := map[];
    }

    method RestoreState(stops: Stops)
      modifies this
      ensures trailingStops == stops
    {
      trailingStops := stops;
    }

    /** Updates the states in place and returns the pending orders with their new stop prices. */
    method Update(pendingOrders: seq<Order>, t: Tick) returns (orders: seq<Order>)
      modifies this
      ensures (orders, trailingStops) == UpdateAll(pendingOrders, old(trailingStops), t)
    {
      orders := [];
      for i := 0 to |pendingOrders|
        invariant (orders, trailingStops) == UpdateAll(pendingOrders[..i], old(trailingStops), t)
      {
        assert pendingOrders[..i + 1][..i] == pendingOrders[..i];
        var updated := UpdateOrder(pendingOrders[i], t);
        orders := orders + [updated];
      }
      assert pendingOrders[..|pendingOrders|] == pendingOrders;
    }

    method UpdateOrder(order: Order, t: Tick) returns (updated: Order)
      modifies this
      ensures var (o, s) := UpdateOne(order, Lookup(old(trailingStops), order.id), t);
        updated == o && trailingStops == Store(old(trailingStops), order.id, s)
    {
      updated := order;
      if order.trailOffset.None? && order.trailPrice.None? {
        return;
      }
      var found := Lookup(trailingStops, order.id);
      if found.None? {
        found := InitialState(order, t);
        if found.None? {
          return;
        }
      }
      var state := Activated(found.value, t);
      if state.isActivated {
        state := Extended(state, t);
        var newStop := NewStop(state, t);
        if newStop.Some? && Improved(t, newStop.value, state.stopPrice) {
          state := state.(stopPrice := newStop.value);
          updated := order.(stopPrice := newStop);
        }
      }
      trailingStops := trailingStops[order.id := state];
    }
  }

  // ----- Orders do not disturb each other -----

  predicate DistinctIds(orders: seq<Order>) {
    forall i, j :: 0 <= i < j < |orders| ==> orders[i].id != orders[j].id
  }

  /** With distinct ids, every order is updated from its own stored state, and no other state changes. */
  lemma {:induction false} UpdatesAreIndependent(orders: seq<Order>, stops: Stops, t: Tick)
    requires DistinctIds(orders)
    ensures var (updated, after) := UpdateAll(orders, stops, t);
      && (forall i :: 0 <= i < |orders| ==>
            var (order, state) := UpdateOne(orders[i], Lookup(stops, orders[i].id), t);
            updated[i] == order && (state.Some? ==> Lookup(after, orders[i].id) == state))
      && (forall id :: (forall i :: 0 <= i < |orders| ==> orders[i].id != id) ==>
           Lookup(after, id) == Lookup(stops, id))
  {
    hide UpdateOne;
    if orders != [] {
      UpdatesAreIndependent(orders[..|orders| - 1], stops, t);
    }
  }

  // ----- The activation machine is a function of the history -----

  /** One bar's extremes and close. */
  datatype Extremes = Extremes(high: real, low: real, close: real)

  function TickOf(direction: Direction, entry: real, bar: Extremes): Tick {
    Tick(direction, entry, bar.high, bar.low, bar.close)
  }

  /** Feeding the bars to a fresh order while the average price stays at `entry`. */
  function AfterBars(order: Order, direction: Direction, entry: real, bars: seq<Extremes>)
    : (Order, Option<TrailState>)
  {
    if bars == [] then (order, None)
    else
      var (o, s) := AfterBars(order, direction, entry, bars[..|bars| - 1]);
      UpdateOne(o, s, TickOf(direction, entry, bars[|bars| - 1]))
  }

  function Better(direction: Direction, a: real, b: real): real {
    if (if direction == Long then b > a else b < a) then b else a
  }

  /** The best price of a nonempty history: the highest high for a long position, the lowest low otherwise. */
  function Best(direction: Direction, bars: seq<Extremes>): real
    requires bars != []
  {
    var last := bars[|bars| - 1];
    var extreme := if direction == Long then last.high else last.low;
    if |bars| == 1 then extreme else Better(direction, Best(direction, bars[..|bars| - 1]), extreme)
  }

  /**
   * The documented stop: the best price less the trail distance, which is a hundredth for each tick of the offset, but
   * never on the losing side of the entry.
   */
  function TrailingLevel(direction: Direction, entry: real, offset: real, best: real): real {
    Better(direction, entry, if direction == Long then best - offset / 100.0 else best + offset / 100.0)
  }

  /** What one order and its state look like once the best price of the history is `best`. */
  predicate Tracks(order: Order, after: Order, state: Option<TrailState>, direction: Direction, entry: real, best: real)
    requires Positive(order.trailOffset)
  {
    var offset := order.trailOffset.value;
    var level := TrailingLevel(direction, entry, offset, best);
    && state.Some? && state.value.stopPrice == level
    && after == order.(stopPrice := if level != entry then Some(level) else order.stopPrice)
    && state.value.trailOffset == order.trailOffset
    && (state.value.isActivated <==>
          if direction == Long then best >= entry + offset / 100.0 else best <= entry - offset / 100.0)
    && (state.value.isActivated ==> state.value.highestPrice == best)
  }

  lemma FirstBarTracks(order: Order, direction: Direction, entry: real, bar: Extremes)
    requires Positive(order.trailOffset)
    ensures var (after, state) := UpdateOne(order, None, TickOf(direction, entry, bar));
      Tracks(order, after, state, direction, entry, if direction == Long then bar.high else bar.low)
  {
  }

  lemma NextBarTracks(order: Order, o: Order, s: Option<TrailState>, direction: Direction, entry: real, best: real,
          bar: Extremes)
    requires Positive(order.trailOffset) && Tracks(order, o, s, direction, entry, best)
    ensures var (after, state) := UpdateOne(o, s, TickOf(direction, entry, bar));
      Tracks(order, after, state, direction, entry,
        Better(direction, best, if direction == Long then bar.high else bar.low))
  {
  }

  /**
   * After any bars the stop is a function of the price history alone: the best price less the trail distance,
   * never past the entry. The order carries it exactly once it has left the entry price.
   */
  lemma {:induction false} StopFollowsHistory(order: Order, direction: Direction, entry: real, bars: seq<Extremes>)
    requires Positive(order.trailOffset) && bars != []
    ensures var (after, state) := AfterBars(order, direction, entry, bars);
      Tracks(order, after, state, direction, entry, Best(direction, bars))
  {
    hide Tracks, UpdateOne, Better;
    var m := |bars| - 1;
    if m == 0 {
      FirstBarTracks(order, direction, entry, bars[0]);
    } else {
      StopFollowsHistory(order, direction, entry, bars[..m]);
      var (o, s) := AfterBars(order, direction, entry, bars[..m]);
      NextBarTracks(order, o, s, direction, entry, Best(direction, bars[..m]), bars[m]);
    }
  }

  /** The stop never retreats. */
  lemma StopNeverRetreats(order: Order, direction: Direction, entry: real, bars: seq<Extremes>, bar: Extremes)
    requires Positive(order.trailOffset) && bars != []
    ensures var before, after := AfterBars(order, direction, entry, bars).1,
      AfterBars(order, direction, entry, bars + [bar]).1;
      && before.Some? && after.Some?
      && if direction == Long then after.value.stopPrice >= before.value.stopPrice
         else after.value.stopPrice <= before.value.stopPrice
  {
    StopFollowsHistory(order, direction, entry, bars);
    StopFollowsHistory(order, direction, entry, bars + [bar]);
    assert (bars + [bar])[..|bars|] == bars;
  }

  // ----- Trailing by price -----

  /** The bar reaches the price at which the trail starts: a distance beyond the entry. */
  predicate StartsTrail(direction: Direction, entry: real, distance: real, bar: Extremes) {
    if direction == Long then bar.high >= entry + distance else bar.low <= entry - distance
  }

  predicate NoWorse(direction: Direction, a: real, b: real) {
    if direction == Long then a >= b else a <= b
  }

  /** The stop that the close of a bar asks for. */
  function BehindClose(direction: Direction, trail: real, bar: Extremes): real {
    if direction == Long then bar.close - trail else bar.close + trail
  }

  /** Some bar of the history, up to and including the one at j, has started the trail. */
  ghost predicate StartedBy(direction: Direction, entry: real, distance: real, bars: seq<Extremes>, j: nat)
    requires j < |bars|
  {
    exists i :: 0 <= i <= j && StartsTrail(direction, entry, distance, bars[i])
  }

  /** The best of the entry and of what each close asks for, from the bar that starts the trail on. */
  ghost predicate BestBehindCloses(direction: Direction, entry: real, distance: real, trail: real, bars: seq<Extremes>,
    stop: real)
  {
    && NoWorse(direction, stop, entry)
    && (forall j :: 0 <= j < |bars| && StartedBy(direction, entry, distance, bars, j) ==>
         NoWorse(direction, stop, BehindClose(direction, trail, bars[j])))
    && (stop == entry ||
        exists j :: 0 <= j < |bars| && StartedBy(direction, entry, distance, bars, j)
          && stop == BehindClose(direction, trail, bars[j]))
  }

  /** An order that trails by price: its ticks are missing or not positive. */
  predicate TrailsByPrice(order: Order) {
    !Positive(order.trailOffset) && Positive(order.trailPrice)
  }

  /** Its trail starts at the price distance, unless ticks are given, even if they are not positive. */
  function StartDistance(order: Order): real
    requires TrailsByPrice(order)
  {
    if order.trailOffset.Some? then order.trailOffset.value / 100.0 else order.trailPrice.value
  }

  /** What an order and its state look like after a history, if it trails by price. */
  ghost predicate TracksCloses(order: Order, after: Order, state: Option<TrailState>, direction: Direction, entry: real,
    bars: seq<Extremes>)
    requires TrailsByPrice(order) && bars != []
  {
    && state.Some?
    && BestBehindCloses(direction, entry, StartDistance(order), order.trailPrice.value, bars, state.value.stopPrice)
    && after == order.(stopPrice := if state.value.stopPrice != entry then Some(state.value.stopPrice)
                                    else order.stopPrice)
    && state.value.trailOffset == order.trailOffset && state.value.trailPrice == order.trailPrice
    && (state.value.isActivated <==> StartedBy(direction, entry, StartDistance(order), bars, |bars| - 1))
  }

  lemma StartedOnce(direction: Direction, entry: real, distance: real, bars: seq<Extremes>, bar: Extremes)
    ensures forall j :: 0 <= j < |bars| ==>
      StartedBy(direction, entry, distance, bars + [bar], j) == StartedBy(direction, entry, distance, bars, j)
    ensures StartedBy(direction, entry, distance, bars + [bar], |bars|) <==>
      || StartsTrail(direction, entry, distance, bar)
      || (bars != [] && StartedBy(direction, entry, distance, bars, |bars| - 1))
  {
    hide StartsTrail;
    var more := bars + [bar];
    assert forall i :: 0 <= i < |bars| ==> more[i] == bars[i];
    assert more[|bars|] == bar;
  }

  /** One more bar: the stop moves exactly when the trail has started and the close asks for a better one. */
  lemma OneMoreClose(direction: Direction, entry: real, distance: real, trail: real, bars: seq<Extremes>, bar: Extremes,
          stop: real)
    requires BestBehindCloses(direction, entry, distance, trail, bars, stop)
    ensures BestBehindCloses(direction, entry, distance, trail, bars + [bar],
      if StartedBy(direction, entry, distance, bars + [bar], |bars|)
        && !NoWorse(direction, stop, BehindClose(direction, trail, bar))
      then BehindClose(direction, trail, bar) else stop)
  {
    StartedOnce(direction, entry, distance, bars, bar);
    hide StartedBy, BehindClose;
    var more := bars + [bar];
    assert forall j :: 0 <= j < |bars| ==> more[j] == bars[j];
    assert more[|bars|] == bar;
  }

  /** One update of an order that trails by price. */
  lemma UpdateByPrice(order: Order, o: Order, s: Option<TrailState>, direction: Direction, entry: real, bar: Extremes)
    requires TrailsByPrice(order)
    requires o.trailOffset == order.trailOffset && o.trailPrice == order.trailPrice
    requires s.Some? ==> s.value.trailOffset == order.trailOffset && s.value.trailPrice == order.trailPrice
    ensures var (after, state) := UpdateOne(o, s, TickOf(direction, entry, bar));
      var stop := if s.Some? then s.value.stopPrice else entry;
      var asked := BehindClose(direction, order.trailPrice.value, bar);
      && state.Some?
      && state.value.trailOffset == order.trailOffset && state.value.trailPrice == order.trailPrice
      && (state.value.isActivated <==>
            (s.Some? && s.value.isActivated) || StartsTrail(direction, entry, StartDistance(order), bar))
      && (if state.value.isActivated && !NoWorse(direction, stop, asked)
          then state.value.stopPrice == asked && after == o.(stopPrice := Some(asked))
          else state.value.stopPrice == stop && after == o)
  {
  }

  /**
   * After any bars the stop of an order that trails by price is the best of the entry and of the closes, less the trail
   * distance, from the bar on that reached the starting price.
   */
  lemma {:induction false} PriceStopFollowsCloses(order: Order, direction: Direction, entry: real, bars: seq<Extremes>)
    requires TrailsByPrice(order) && bars != []
    ensures var (after, state) := AfterBars(order, direction, entry, bars);
      TracksCloses(order, after, state, direction, entry, bars)
  {
    hide UpdateOne, StartedBy, BestBehindCloses, BehindClose, StartsTrail;
    var m := |bars| - 1;
    var front, d, trail := bars[..m], StartDistance(order), order.trailPrice.value;
    assert bars == front + [bars[m]];
    var (o, s) := AfterBars(order, direction, entry, front);
    if m > 0 {
      PriceStopFollowsCloses(order, direction, entry, front);
    } else {
      NothingTrailed(direction, entry, d, trail);
    }
    UpdateByPrice(order, o, s, direction, entry, bars[m]);
    StartedOnce(direction, entry, d, front, bars[m]);
    OneMoreClose(direction, entry, d, trail, front, bars[m], if s.Some? then s.value.stopPrice else entry);
    StaysOffEntry(direction, entry, d, trail, front, if s.Some? then s.value.stopPrice else entry);
  }

  lemma NothingTrailed(direction: Direction, entry: real, distance: real, trail: real)
    ensures BestBehindCloses(direction, entry, distance, trail, [], entry)
  {
  }

  lemma StaysOffEntry(direction: Direction, entry: real, distance: real, trail: real, bars: seq<Extremes>, stop: real)
    requires BestBehindCloses(direction, entry, distance, trail, bars, stop)
    ensures NoWorse(direction, stop, entry)
  {
  }

  /** An order whose ticks and price are both missing or not positive never trails. */
  lemma {:induction false} NoTrailNoStop(order: Order, direction: Direction, entry: real, bars: seq<Extremes>)
    requires !Positive(order.trailOffset) && !Positive(order.trailPrice)
    ensures AfterBars(order, direction, entry, bars) == (order, None)
  {
    if bars != [] {
      NoTrailNoStop(order, direction, entry, bars[..|bars| - 1]);
    }
  }

  // ----- Several orders over several bars -----

  /** The pending orders and the stored states after some bars while the average price stays at `entry`. */
  function UpdateBars(orders: seq<Order>, stops: Stops, direction: Direction, entry: real, bars: seq<Extremes>)
    : (r: (seq<Order>, Stops))
    ensures |r.0| == |orders|
  {
    if bars == [] then (orders, stops)
    else
      var (before, stored) := UpdateBars(orders, stops, direction, entry, bars[..|bars| - 1]);
      UpdateAll(before, stored, TickOf(direction, entry, bars[|bars| - 1]))
  }

  predicate SameIds(orders: seq<Order>, updated: seq<Order>) {
    && |updated| == |orders|
    && forall i :: 0 <= i < |orders| ==>
         && updated[i].id == orders[i].id && updated[i].trailOffset == orders[i].trailOffset
         && updated[i].trailPrice == orders[i].trailPrice
  }

  lemma UpdateKeepsIds(orders: seq<Order>, stops: Stops, t: Tick)
    requires DistinctIds(orders)
    ensures SameIds(orders, UpdateAll(orders, stops, t).0)
  {
    hide UpdateAll, UpdateOne, Lookup;
    UpdatesAreIndependent(orders, stops, t);
    var updated := UpdateAll(orders, stops, t).0;
    forall i | 0 <= i < |orders|
      ensures updated[i].id == orders[i].id && updated[i].trailOffset == orders[i].trailOffset
        && updated[i].trailPrice == orders[i].trailPrice
    {
      UpdateKeepsTerms(orders[i], Lookup(stops, orders[i].id), t);
    }
  }

  lemma UpdateKeepsTerms(order: Order, state: Option<TrailState>, t: Tick)
    ensures var (after, _) := UpdateOne(order, state, t);
      after.id == order.id && after.trailOffset == order.trailOffset && after.trailPrice == order.trailPrice
  {
    hide InitialState, Activated, Extended, NewStop;
  }

  predicate Trails(order: Order) {
    Positive(order.trailOffset) || Positive(order.trailPrice)
  }

  lemma StateIsKept(order: Order, direction: Direction, entry: real, bars: seq<Extremes>)
    requires Trails(order) && bars != []
    ensures AfterBars(order, direction, entry, bars).1.Some?
  {
    hide AfterBars, Best, TrailingLevel, BestBehindCloses, StartedBy;
    if Positive(order.trailOffset) {
      StopFollowsHistory(order, direction, entry, bars);
    } else {
      PriceStopFollowsCloses(order, direction, entry, bars);
    }
  }

  /** Over any bars each trailing order of a list goes its own way. */
  lemma {:induction false} BarsAreIndependent(
      orders: seq<Order>, stops: Stops, direction: Direction, entry: real, bars: seq<Extremes>, i: nat)
    requires DistinctIds(orders) && i < |orders| && Trails(orders[i])
    requires Lookup(stops, orders[i].id).None?
    ensures var (updated, after) := UpdateBars(orders, stops, direction, entry, bars);
      && SameIds(orders, updated)
      && (updated[i], Lookup(after, orders[i].id)) == AfterBars(orders[i], direction, entry, bars)
  {
    hide UpdateAll, UpdateOne, Lookup, Trails;
    if bars != [] {
      var m := |bars| - 1;
      BarsAreIndependent(orders, stops, direction, entry, bars[..m], i);
      var (before, stored) := UpdateBars(orders, stops, direction, entry, bars[..m]);
      var t := TickOf(direction, entry, bars[m]);
      UpdateKeepsIds(before, stored, t);
      UpdatesAreIndependent(before, stored, t);
      StateIsKept(orders[i], direction, entry, bars);
    }
  }

  /**
   * Each trailing order of a list with distinct ids has, after any bars, the stop that the price history alone fixes,
   * whatever other orders there are.
   */
  lemma StopsFollowHistory(
      orders: seq<Order>, stops: Stops, direction: Direction, entry: real, bars: seq<Extremes>, i: nat)
    requires DistinctIds(orders) && i < |orders| && Trails(orders[i]) && bars != []
    requires Lookup(stops, orders[i].id).None?
    ensures var (updated, after) := UpdateBars(orders, stops, direction, entry, bars);
      var state := Lookup(after, orders[i].id);
      if Positive(orders[i].trailOffset)
      then Tracks(orders[i], updated[i], state, direction, entry, Best(direction, bars))
      else TracksCloses(orders[i], updated[i], state, direction, entry, bars)
  {
    hide UpdateBars, AfterBars, Tracks, TracksCloses, Best;
    BarsAreIndependent(orders, stops, direction, entry, bars, i);
    if Positive(orders[i].trailOffset) {
      StopFollowsHistory(orders[i], direction, entry, bars);
    } else {
      PriceStopFollowsCloses(orders[i], direction, entry, bars);
    }
  }
}
