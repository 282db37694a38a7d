/** Sockets, timers and reconnects of the candle feed (src/trading/bybit-websocket.ts). */
module FeedReconnect {
  import opened Prelude

  datatype Category = Linear | Spot

  datatype Topic = Topic(category: Category, name: string)

  datatype ReadyState = Connecting | Open | Closing | Closed

  /** A socket, and the topics its peer was last told to stream on it. */
  datatype Socket = Socket(category: Category, ready: ReadyState, streaming: set<Topic>)

  type SocketId = nat
  type TimerId = nat

  datatype Timer = Reconnect(category: Category) | ConnectTimeout(category: Category, socket: SocketId)

  /** What the service keeps for one category. */
  datatype Feed = Feed(socket: Option<SocketId>, connecting: bool, attempts: nat,
                       timer: Option<TimerId>, timeoutTimer: Option<TimerId>)

  /** The service, with the sockets and the live timers it has created. */
  datatype State = State(isStopped: bool, linear: Feed, spot: Feed, subscriptions: set<Topic>,
                         sockets: seq<Socket>, timers: map<TimerId, Timer>, nextTimer: TimerId)

  const Idle := Feed(None, false, 0, None, None)

  const Initial := State(false, Idle, Idle, {}, [], map[], 0)

  function FeedOf(s: State, c: Category): Feed {
    match c
    case Linear => s.linear
    case Spot => s.spot
  }

  function Other(c: Category): Category {
    match c
    case Linear => Spot
    case Spot => Linear
  }

  function WithFeed(s: State, c: Category, f: Feed): State {
    match c
    case Linear => s.(linear := f)
    case Spot => s.(spot := f)
  }

  function Topics(subscriptions: set<Topic>, c: Category): set<Topic> {
    set t | t in subscriptions && t.category == c
  }

  predicate Registered(s: State, id: SocketId) {
    id < |s.sockets| && FeedOf(s, s.sockets[id].category).socket == Some(id)
  }

  predicate IsOpen(s: State, socket: Option<SocketId>) {
    socket.Some? && socket.value < |s.sockets| && s.sockets[socket.value].ready == Open
  }

  // ----- Timers -----

  function ClearReconnectTimer(s: State, c: Category): State {
    var f := FeedOf(s, c);
    if f.timer.None? then s else WithFeed(s.(timers := s.timers - {f.timer.value}), c, f.(timer := None))
  }

  function ClearConnectTimeout(s: State, c: Category): State {
    var f := FeedOf(s, c);
    if f.timeoutTimer.None? then s
    else WithFeed(s.(timers := s.timers - {f.timeoutTimer.value}), c, f.(timeoutTimer := None))
  }

  function ArmConnectTimeout(s: State, c: Category, socket: SocketId): State {
    var cleared := ClearConnectTimeout(s, c);
    WithFeed(cleared.(timers := cleared.timers[cleared.nextTimer := ConnectTimeout(c, socket)],
      nextTimer := cleared.nextTimer + 1),
             c, FeedOf(cleared, c).(timeoutTimer := Some(cleared.nextTimer)))
  }

  function ScheduleReconnect(s: State, c: Category, max: nat): State {
    var f := FeedOf(s, c);
    if s.isStopped || f.timer.Some? || f.attempts >= max then s
    else
      WithFeed(s.(timers := s.timers[s.nextTimer := Reconnect(c)], nextTimer := s.nextTimer + 1),
               c, f.(timer := Some(s.nextTimer)))
  }

  // ----- Sockets -----

  function CloseSocket(s: State, id: SocketId): State {
    if id < |s.sockets| && s.sockets[id].ready != Closed then
      s.(sockets := s.sockets[id := s.sockets[id].(ready := Closing)])
    else s
  }

  function CloseAndForget(s: State, c: Category): State {
    var f := FeedOf(s, c);
    if f.socket.None? then s else WithFeed(CloseSocket(s, f.socket.value), c, f.(socket := None))
  }

  /** connect: constructed tells whether the socket constructor returned or threw. */
  function AfterConnect(s: State, c: Category, constructed: bool, max: nat): State {
    var f := FeedOf(s, c);
    if f.connecting || IsOpen(s, f.socket) then s
    else
      var cleared := ClearConnectTimeout(ClearReconnectTimer(s, c), c);
      var started := WithFeed(cleared, c, FeedOf(cleared, c).(connecting := true)).(isStopped := false);
      if constructed then
        var socket := |started.sockets|;
        var created := started.(sockets := started.sockets + [Socket(c, Connecting, {})]);
        ArmConnectTimeout(WithFeed(created, c, FeedOf(created, c).(socket := Some(socket))), c, socket)
      else
        ScheduleReconnect(WithFeed(started, c, FeedOf(started, c).(connecting := false)), c, max)
  }

  function StopFeed(s: State, c: Category): State {
    CloseAndForget(ClearConnectTimeout(ClearReconnectTimer(s, c), c), c)
  }

  /** disconnect; it leaves the connecting flags as they are. */
  function AfterDisconnect(s: State): State {
    StopFeed(StopFeed(s.(isStopped := true), Linear), Spot)
  }

  function CloseSpot(s: State): State {
    var cleared := ClearConnectTimeout(ClearReconnectTimer(s, Spot), Spot);
    CloseAndForget(cleared.(spot := cleared.spot.(connecting := false, attempts := 0)), Spot)
  }

  /** Tell the peer of an open socket to start, or to stop, streaming a topic. */
  function Send(s: State, socket: Option<SocketId>, t: Topic, start: bool): State {
    if IsOpen(s, socket) then
      var id := socket.value;
      var streaming := s.sockets[id].streaming;
      s.(sockets := s.sockets[id := s.sockets[id].(streaming := if start then streaming + {t} else streaming - {t})])
    else s
  }

  function AfterSubscribe(s: State, t: Topic, constructed: bool, max: nat): State {
    var added := s.(subscriptions := s.subscriptions + {t});
    var connected := if t.category == Spot then AfterConnect(added, Spot, constructed, max) else added;
    Send(connected, FeedOf(connected, t.category).socket, t, true)
  }

  function AfterUnsubscribe(s: State, t: Topic): State {
    var removed := s.(subscriptions := s.subscriptions - {t});
    var sent := Send(removed, FeedOf(removed, t.category).socket, t, false);
    if t.category == Spot && Topics(sent.subscriptions, Spot) == {} then CloseSpot(sent) else sent
  }

  // ----- Socket events -----

  function SetReady(s: State, id: SocketId, ready: ReadyState): State
    requires id < |s.sockets|
  {
    s.(sockets := s.sockets[id := s.sockets[id].(ready := ready)])
  }

  /** The open handler; it subscribes anew to every topic of its category. */
  function OnOpen(s: State, id: SocketId): State
    requires id < |s.sockets|
  {
    if !Registered(s, id) then s
    else
      var c := s.sockets[id].category;
      var cleared := ClearConnectTimeout(s, c);
      WithFeed(cleared, c, FeedOf(cleared, c).(connecting := false, attempts := 0)).(
        sockets := s.sockets[id := s.sockets[id].(streaming := s.sockets[id].streaming + Topics(s.subscriptions, c))])
  }

  /** The close and the error handler do the same to the state. */
  function OnDown(s: State, id: SocketId, max: nat): State
    requires id < |s.sockets|
  {
    if !Registered(s, id) then s
    else
      var c := s.sockets[id].category;
      var cleared := ClearConnectTimeout(s, c);
      var down := WithFeed(cleared, c, FeedOf(cleared, c).(connecting := false));
      if down.isStopped then down else ScheduleReconnect(down, c, max)
  }

  function OnConnectTimeout(s: State, c: Category, socket: SocketId, max: nat): State {
    var fired := WithFeed(s, c, FeedOf(s, c).(timeoutTimer := None));
    if FeedOf(fired, c).socket != Some(socket) || IsOpen(fired, Some(socket)) then fired
    else
      var down := WithFeed(fired, c, FeedOf(fired, c).(connecting := false));
      ScheduleReconnect(CloseSocket(down, socket), c, max)
  }

  function OnReconnectTimer(s: State, c: Category, constructed: bool, max: nat): State {
    var f := FeedOf(s, c);
    AfterConnect(WithFeed(s, c, f.(timer := None, attempts := f.attempts + 1)), c, constructed, max)
  }

  // ----- Every order of calls and events -----

  datatype Event =
    | Connect(category: Category, constructed: bool)
    | Disconnect
    | Subscribe(topic: Topic, constructed: bool)
    | Unsubscribe(topic: Topic)
    | Opened(socket: SocketId)
    | Failed(socket: SocketId)
    | Ended(socket: SocketId)
    | Fade(socket: SocketId)                    // the peer starts closing
    | Fire(timer: TimerId, constructed: bool)

  predicate Enabled(s: State, e: Event) {
    match e
    case Connect(_, _) => true
    case Disconnect => true
    case Subscribe(_, _) => true
    case Unsubscribe(_) => true
    case Opened(id) => id < |s.sockets| && s.sockets[id].ready == Connecting
    case Failed(id) => id < |s.sockets| && s.sockets[id].ready != Closed
    case Ended(id) => id < |s.sockets| && s.sockets[id].ready != Closed
    case Fade(id) => id < |s.sockets| && s.sockets[id].ready == Open
    case Fire(id, _) => id in s.timers
  }

  function Next(s: State, e: Event, max: nat): State
    requires Enabled(s, e)
  {
    match e
    case Connect(c, constructed) => AfterConnect(s, c, constructed, max)
    case Disconnect => AfterDisconnect(s)
    case Subscribe(t, constructed) => AfterSubscribe(s, t, constructed, max)
    case Unsubscribe(t) => AfterUnsubscribe(s, t)
    case Opened(id) => OnOpen(SetReady(s, id, Open), id)
    case Failed(id) => OnDown(SetReady(s, id, Closing), id, max)
    case Ended(id) => OnDown(SetReady(s, id, Closed), id, max)
    case Fade(id) => SetReady(s, id, Closing)
    case Fire(id, constructed) =>
      var fired := s.(timers := s.timers - {id});
      match s.timers[id]
      case Reconnect(c) => OnReconnectTimer(fired, c, constructed, max)
      case ConnectTimeout(c, socket) => OnConnectTimeout(fired, c, socket, max)
  }

  function Play(events: seq<Event>, max: nat): Option<State> {
    if events == [] then Some(Initial)
    else
      var before := Play(events[..|events| - 1], max);
      var e := events[|events| - 1];
      if before.Some? && Enabled(before.value, e) then Some(Next(before.value, e, max)) else None
  }

  // ----- What holds in every state -----

  /** A handle stands for the live timer it names, and a live timer has its handle. */
  predicate TimersOk(s: State, c: Category) {
    var f := FeedOf(s, c);
    && (f.timer.Some? ==> f.timer.value in s.timers && s.timers[f.timer.value] == Reconnect(c))
    && (f.timeoutTimer.Some? ==> f.socket.Some? && f.timeoutTimer.value in s.timers
                                 && s.timers[f.timeoutTimer.value] == ConnectTimeout(c, f.socket.value))
    && (forall id :: id in s.timers && s.timers[id] == Reconnect(c) ==> f.timer == Some(id))
    && (forall id :: id in s.timers && s.timers[id].ConnectTimeout? && s.timers[id].category == c ==>
         f.timeoutTimer == Some(id))
  }

  predicate TimerIds(s: State) {
    forall id :: id in s.timers ==> id < s.nextTimer
  }

  predicate FeedConsistent(s: State, c: Category, max: nat) {
    var f := FeedOf(s, c);
    && (f.socket.Some? ==> f.socket.value < |s.sockets| && s.sockets[f.socket.value].category == c)
    && (f.connecting ==> f.timer.None?)
    && (f.timeoutTimer.Some? ==> f.connecting)
    && (f.connecting && f.socket.Some? ==> f.timeoutTimer.Some? && s.sockets[f.socket.value].ready == Connecting)
    && f.attempts <= max && (f.timer.Some? ==> f.attempts < max)
  }

  /** A handshake under its timeout, a socket that is still to close, a pending reconnect, or no attempts left. */
  predicate Alive(s: State, c: Category, max: nat) {
    var f := FeedOf(s, c);
    || (f.connecting && f.timeoutTimer.Some?)
    || (f.socket.Some? && f.socket.value < |s.sockets|
        && (s.sockets[f.socket.value].ready == Open || s.sockets[f.socket.value].ready == Closing))
    || f.timer.Some?
    || f.attempts >= max
  }

  predicate SocketsOk(s: State) {
    forall id :: 0 <= id < |s.sockets| ==> SocketOk(s, id)
  }

  /** A live socket is the registered one of its category, and an open one streams exactly what is subscribed. */
  predicate SocketOk(s: State, id: SocketId)
    requires id < |s.sockets|
  {
    var socket := s.sockets[id];
    && (socket.ready == Connecting || socket.ready == Open ==> Registered(s, id))
    && (socket.ready == Connecting ==> FeedOf(s, socket.category).connecting && socket.streaming == {})
    && (socket.ready == Open ==> socket.streaming == Topics(s.subscriptions, socket.category))
  }

  /** A stopped service has no socket and no timer. */
  predicate StoppedOk(s: State) {
    s.isStopped ==> forall c :: FeedOf(s, c).socket.None? && FeedOf(s, c).timer.None? && FeedOf(s, c).timeoutTimer.None?
  }

  predicate Consistent(s: State, c: Category, max: nat) {
    TimersOk(s, c) && FeedConsistent(s, c, max)
  }

  /** One category is in order: a registered socket is never left without a way on. */
  predicate CategoryOk(s: State, c: Category, max: nat) {
    Consistent(s, c, max) && (FeedOf(s, c).socket.Some? ==> Alive(s, c, max))
  }

  predicate Inv(s: State, max: nat) {
    TimerIds(s) && SocketsOk(s) && StoppedOk(s) && CategoryOk(s, Linear, max) && CategoryOk(s, Spot, max)
  }

  // ----- What the steps do to a state -----

  function Handles(f: Feed): set<TimerId> {
    (if f.timer.Some? then {f.timer.value} else {}) + (if f.timeoutTimer.Some? then {f.timeoutTimer.value} else {})
  }

  lemma ClearEffect(s: State, c: Category)
    ensures var f := FeedOf(s, c);
      ClearConnectTimeout(ClearReconnectTimer(s, c), c)
      == WithFeed(s.(timers := s.timers - Handles(f)), c, f.(timer := None, timeoutTimer := None))
  {
    var f := FeedOf(s, c);
    assert f.timer.Some? && f.timeoutTimer.Some? ==>
      s.timers - Handles(f) == s.timers - {f.timer.value} - {f.timeoutTimer.value};
    assert f.timer.None? && f.timeoutTimer.None? ==> s.timers - Handles(f) == s.timers;
  }

  /** The socket a category had, told to close. */
  function Dropped(s: State, c: Category): seq<Socket> {
    if FeedOf(s, c).socket.None? then s.sockets else CloseSocket(s, FeedOf(s, c).socket.value).sockets
  }

  lemma StopFeedEffect(s: State, c: Category)
    ensures var f := FeedOf(s, c);
      StopFeed(s, c) == WithFeed(s.(timers := s.timers - Handles(f), sockets := Dropped(s, c)), c,
                                 f.(socket := None, timer := None, timeoutTimer := None))
  {
    ClearEffect(s, c);
    hide ClearReconnectTimer, ClearConnectTimeout, Handles;
  }

  lemma ConnectEffect(s: State, c: Category, constructed: bool, max: nat)
    requires !FeedOf(s, c).connecting && !IsOpen(s, FeedOf(s, c).socket)
    ensures var f := FeedOf(s, c); var timers := s.timers - Handles(f); var r := AfterConnect(s, c, constructed, max);
      && (constructed ==>
            r == WithFeed(s.(isStopped := false, sockets := s.sockets + [Socket(c, Connecting, {})],
                             timers := timers[s.nextTimer := ConnectTimeout(c, |s.sockets|)],
                               nextTimer := s.nextTimer + 1),
                          c, f.(socket := Some(|s.sockets|), connecting := true, timer := None,
                            timeoutTimer := Some(s.nextTimer))))
      && (!constructed ==>
            r == ScheduleReconnect(WithFeed(s.(isStopped := false, timers := timers), c,
              f.(timer := None, timeoutTimer := None)), c, max))
  {
    ClearEffect(s, c);
    hide ClearReconnectTimer, Handles, IsOpen, ScheduleReconnect;
  }

  // ----- Every step keeps the invariant -----

  /** What a category is in order about, left alone. */
  predicate Untouched(s: State, next: State, c: Category) {
    && FeedOf(next, c) == FeedOf(s, c)
    && |s.sockets| <= |next.sockets|
    && (forall id :: 0 <= id < |s.sockets| && s.sockets[id].category == c ==>
          next.sockets[id].category == c && next.sockets[id].ready == s.sockets[id].ready)
    && (forall id :: id in s.timers && s.timers[id].category == c ==>
         id in next.timers && next.timers[id] == s.timers[id])
    && (forall id :: id in next.timers && next.timers[id].category == c ==>
         id in s.timers && next.timers[id] == s.timers[id])
  }

  lemma UntouchedKeepsCategory(s: State, next: State, c: Category, max: nat)
    requires CategoryOk(s, c, max) && Untouched(s, next, c)
    ensures CategoryOk(next, c, max)
  {
  }

  /** The invariant, except that category c may have been left without a way on. */
  predicate InvBut(s: State, c: Category, max: nat) {
    TimerIds(s) && SocketsOk(s) && StoppedOk(s) && Consistent(s, c, max) && CategoryOk(s, Other(c), max)
  }

  lemma InvIsInvBut(s: State, c: Category, max: nat)
    requires Inv(s, max)
    ensures InvBut(s, c, max) && CategoryOk(s, c, max)
  {
    hide TimerIds, SocketsOk, StoppedOk, Consistent, Alive;
  }

  /** A step on one category keeps the invariant if it puts that one in order and leaves the other alone. */
  lemma OneCategoryKeepsInv(s: State, next: State, c: Category, max: nat)
    requires CategoryOk(s, Other(c), max) && Untouched(s, next, Other(c)) && CategoryOk(next, c, max)
    requires TimerIds(next) && SocketsOk(next) && StoppedOk(next)
    ensures Inv(next, max)
  {
    UntouchedKeepsCategory(s, next, Other(c), max);
    hide CategoryOk, SocketsOk, Untouched, TimerIds, StoppedOk;
  }

  // A new socket.

  predicate IsConnected(s: State, c: Category, next: State) {
    next == WithFeed(s.(isStopped := false, sockets := s.sockets + [Socket(c, Connecting, {})],
                        timers := (s.timers - Handles(FeedOf(s, c)))[s.nextTimer := ConnectTimeout(c, |s.sockets|)],
                        nextTimer := s.nextTimer + 1),
                     c, FeedOf(s, c).(socket := Some(|s.sockets|), connecting := true, timer := None,
                       timeoutTimer := Some(s.nextTimer)))
  }

  lemma ConnectedKeepsInv(s: State, c: Category, next: State, max: nat)
    requires InvBut(s, c, max) && !FeedOf(s, c).connecting && !IsOpen(s, FeedOf(s, c).socket) && IsConnected(s, c, next)
    ensures Inv(next, max)
  {
    ConnectedCategory(s, c, next, max);
    ConnectedUntouched(s, c, next, max);
    ConnectedKeepsSockets(s, c, next);
    hide SocketsOk, Consistent, CategoryOk, Untouched, Handles, TimerIds;
    OneCategoryKeepsInv(s, next, c, max);
  }

  lemma ConnectedCategory(s: State, c: Category, next: State, max: nat)
    requires TimerIds(s) && Consistent(s, c, max) && IsConnected(s, c, next)
    ensures CategoryOk(next, c, max) && TimerIds(next)
  {
  }

  lemma ConnectedUntouched(s: State, c: Category, next: State, max: nat)
    requires TimerIds(s) && Consistent(s, c, max) && IsConnected(s, c, next)
    ensures Untouched(s, next, Other(c))
  {
  }

  lemma ConnectedKeepsSockets(s: State, c: Category, next: State)
    requires SocketsOk(s) && !FeedOf(s, c).connecting && !IsOpen(s, FeedOf(s, c).socket) && IsConnected(s, c, next)
    ensures SocketsOk(next)
  {
    hide Topics, Handles;
    forall i | 0 <= i < |next.sockets|
      ensures SocketOk(next, i)
    {
      assert i < |s.sockets| ==> SocketOk(s, i);
    }
  }

  // A category that went down and is scheduled again.

  /** From s to down: category c dropped its handshake and its timers among gone; its socket may be closing. */
  predicate WentDown(s: State, c: Category, gone: set<TimerId>, down: State) {
    var f := FeedOf(s, c); var g := FeedOf(down, c);
    && down.timers == s.timers - gone && gone <= Handles(f)
    && down.nextTimer == s.nextTimer && down.subscriptions == s.subscriptions && !down.isStopped
    && FeedOf(down, Other(c)) == FeedOf(s, Other(c))
    && g.socket == f.socket && !g.connecting && g.timeoutTimer.None? && g.attempts == f.attempts
    && (f.timeoutTimer.Some? ==> f.timeoutTimer.value in gone)
    && g.timer == (if f.timer.Some? && f.timer.value in gone then None else f.timer)
    && |down.sockets| == |s.sockets|
    && (forall i :: 0 <= i < |s.sockets| && f.socket != Some(i) ==> down.sockets[i] == s.sockets[i])
    && (f.socket.Some? && f.socket.value < |s.sockets| ==>
          var i := f.socket.value;
          && down.sockets[i].category == s.sockets[i].category
          && down.sockets[i].ready != Connecting && (down.sockets[i].ready == Open ==> down.sockets[i] == s.sockets[i]))
  }

  lemma WentDownConsistent(s: State, c: Category, gone: set<TimerId>, down: State, max: nat)
    requires TimerIds(s) && Consistent(s, c, max) && WentDown(s, c, gone, down)
    ensures Consistent(down, c, max) && TimerIds(down)
  {
  }

  lemma WentDownUntouched(s: State, c: Category, gone: set<TimerId>, down: State, max: nat)
    requires TimerIds(s) && Consistent(s, c, max) && WentDown(s, c, gone, down)
    ensures Untouched(s, down, Other(c))
  {
  }

  lemma WentDownKeepsSockets(s: State, c: Category, gone: set<TimerId>, down: State, max: nat)
    requires SocketsOk(s) && Consistent(s, c, max) && WentDown(s, c, gone, down)
    ensures SocketsOk(down)
  {
    hide Topics, Handles, TimersOk;
    forall i | 0 <= i < |down.sockets|
      ensures SocketOk(down, i)
    {
      assert SocketOk(s, i);
    }
  }

  lemma ScheduleOk(s: State, c: Category, max: nat)
    requires TimerIds(s) && SocketsOk(s) && StoppedOk(s) && Consistent(s, c, max) && CategoryOk(s, Other(c), max)
    requires !s.isStopped && !FeedOf(s, c).connecting
    ensures Inv(ScheduleReconnect(s, c, max), max)
  {
    var next := ScheduleReconnect(s, c, max);
    ScheduledCategory(s, c, max);
    ScheduledKeepsSockets(s, c, max);
    hide Consistent, CategoryOk, SocketsOk, Untouched, TimerIds;
    OneCategoryKeepsInv(s, next, c, max);
  }

  lemma ScheduledCategory(s: State, c: Category, max: nat)
    requires TimerIds(s) && Consistent(s, c, max) && !s.isStopped && !FeedOf(s, c).connecting
    ensures var next := ScheduleReconnect(s, c, max);
      CategoryOk(next, c, max) && TimerIds(next) && Untouched(s, next, Other(c)) && !next.isStopped
  {
  }

  lemma ScheduledKeepsSockets(s: State, c: Category, max: nat)
    requires SocketsOk(s)
    ensures SocketsOk(ScheduleReconnect(s, c, max))
  {
    hide Topics;
    var next := ScheduleReconnect(s, c, max);
    forall i | 0 <= i < |next.sockets|
      ensures SocketOk(next, i)
    {
      assert SocketOk(s, i);
    }
  }

  lemma DownThenScheduled(s: State, c: Category, gone: set<TimerId>, down: State, max: nat)
    requires InvBut(s, c, max) && WentDown(s, c, gone, down)
    ensures Inv(ScheduleReconnect(down, c, max), max)
  {
    WentDownConsistent(s, c, gone, down, max);
    WentDownUntouched(s, c, gone, down, max);
    WentDownKeepsSockets(s, c, gone, down, max);
    assert !down.isStopped && !FeedOf(down, c).connecting;
    hide Consistent, CategoryOk, SocketsOk, Untouched, TimerIds, WentDown;
    UntouchedKeepsCategory(s, down, Other(c), max);
    ScheduleOk(down, c, max);
  }

  lemma ConnectKeepsInv(s: State, c: Category, constructed: bool, max: nat)
    requires InvBut(s, c, max) && (FeedOf(s, c).connecting ==> Inv(s, max))
    ensures Inv(AfterConnect(s, c, constructed, max), max)
  {
    if FeedOf(s, c).connecting {
    } else if IsOpen(s, FeedOf(s, c).socket) {
      assert Alive(s, c, max);
      hide TimerIds, SocketsOk, StoppedOk, Consistent;
    } else {
      ConnectEffect(s, c, constructed, max);
      if constructed {
        ConnectedKeepsInv(s, c, AfterConnect(s, c, true, max), max);
      } else {
        hide AfterConnect;
        var f := FeedOf(s, c);
        var down := WithFeed(s.(isStopped := false, timers := s.timers - Handles(f)), c,
          f.(timer := None, timeoutTimer := None));
        NotLive(s, c, max);
        assert WentDown(s, c, Handles(f), down);
        DownThenScheduled(s, c, Handles(f), down, max);
      }
    }
  }

  /** A socket whose category is not connecting and not open is not live. */
  lemma NotLive(s: State, c: Category, max: nat)
    requires SocketsOk(s) && Consistent(s, c, max) && !FeedOf(s, c).connecting
    ensures FeedOf(s, c).socket.Some? ==> s.sockets[FeedOf(s, c).socket.value].ready != Connecting
  {
    if FeedOf(s, c).socket.Some? {
      assert SocketOk(s, FeedOf(s, c).socket.value);
    }
  }

  /** Any change of a socket that its category has replaced or forgotten. */
  lemma ForgottenKeepsInv(s: State, id: SocketId, ready: ReadyState, max: nat)
    requires Inv(s, max) && id < |s.sockets| && !Registered(s, id) && (ready == Closing || ready == Closed)
    ensures Inv(SetReady(s, id, ready), max)
  {
    var next := SetReady(s, id, ready);
    ForgottenSockets(s, id, ready);
    ForgottenCategory(s, Linear, id, ready, max);
    ForgottenCategory(s, Spot, id, ready, max);
    hide Consistent, CategoryOk, SocketsOk;
  }

  lemma ForgottenSockets(s: State, id: SocketId, ready: ReadyState)
    requires SocketsOk(s) && id < |s.sockets| && !Registered(s, id) && (ready == Closing || ready == Closed)
    ensures SocketsOk(SetReady(s, id, ready))
  {
    hide Topics;
    var next := SetReady(s, id, ready);
    forall i | 0 <= i < |next.sockets|
      ensures SocketOk(next, i)
    {
      assert SocketOk(s, i);
    }
  }

  lemma ForgottenCategory(s: State, c: Category, id: SocketId, ready: ReadyState, max: nat)
    requires CategoryOk(s, c, max) && id < |s.sockets| && !Registered(s, id)
    ensures CategoryOk(SetReady(s, id, ready), c, max)
  {
  }

  lemma DownKeepsInv(s: State, id: SocketId, ready: ReadyState, max: nat)
    requires Inv(s, max) && id < |s.sockets| && (ready == Closing || ready == Closed)
    ensures Inv(OnDown(SetReady(s, id, ready), id, max), max)
  {
    var c := s.sockets[id].category;
    if !Registered(s, id) {
      ForgottenKeepsInv(s, id, ready, max);
    } else {
      var f := FeedOf(s, c);
      var gone := if f.timeoutTimer.Some? then {f.timeoutTimer.value} else {};
      var down := WithFeed(SetReady(s, id, ready).(timers := s.timers - gone), c,
        f.(connecting := false, timeoutTimer := None));
      DownIsWentDown(s, id, ready, gone, down, max);
      InvIsInvBut(s, c, max);
      DownThenScheduled(s, c, gone, down, max);
    }
    hide Inv, WentDown, Registered;
  }

  lemma DownIsWentDown(s: State, id: SocketId, ready: ReadyState, gone: set<TimerId>, down: State, max: nat)
    requires Inv(s, max) && id < |s.sockets| && (ready == Closing || ready == Closed) && Registered(s, id)
    requires var f := FeedOf(s, s.sockets[id].category);
      && gone == (if f.timeoutTimer.Some? then {f.timeoutTimer.value} else {})
      && down == WithFeed(SetReady(s, id, ready).(timers := s.timers - gone), s.sockets[id].category,
                          f.(connecting := false, timeoutTimer := None))
    ensures WentDown(s, s.sockets[id].category, gone, down)
    ensures OnDown(SetReady(s, id, ready), id, max) == ScheduleReconnect(down, s.sockets[id].category, max)
  {
    DownKeepsTimer(s, s.sockets[id].category, max);
    assert FeedOf(s, s.sockets[id].category).timeoutTimer.None? ==> s.timers - gone == s.timers;
    hide ScheduleReconnect, CategoryOk, SocketsOk, TimerIds;
  }

  /** The two handles of a category never name the same timer. */
  lemma DownKeepsTimer(s: State, c: Category, max: nat)
    requires Inv(s, max)
    ensures var f := FeedOf(s, c); f.timer.Some? && f.timeoutTimer.Some? ==> f.timer.value != f.timeoutTimer.value
  {
  }

  lemma FadeKeepsInv(s: State, id: SocketId, max: nat)
    requires Inv(s, max) && Enabled(s, Fade(id))
    ensures Inv(SetReady(s, id, Closing), max)
  {
    var next := SetReady(s, id, Closing);
    var c := s.sockets[id].category;
    FadedSockets(s, id);
    assert SocketOk(s, id);
    InvIsInvBut(s, c, max);
    FadedCategory(s, c, id, max);
    assert Untouched(s, next, Other(c));
    hide Consistent, CategoryOk, SocketsOk, Untouched;
    OneCategoryKeepsInv(s, next, c, max);
  }

  lemma FadedSockets(s: State, id: SocketId)
    requires SocketsOk(s) && id < |s.sockets|
    ensures SocketsOk(SetReady(s, id, Closing))
  {
    hide Topics;
    var next := SetReady(s, id, Closing);
    forall i | 0 <= i < |next.sockets|
      ensures SocketOk(next, i)
    {
      assert SocketOk(s, i);
    }
  }

  lemma FadedCategory(s: State, c: Category, id: SocketId, max: nat)
    requires CategoryOk(s, c, max) && id < |s.sockets| && s.sockets[id].category == c && s.sockets[id].ready == Open
      && Registered(s, id)
    ensures CategoryOk(SetReady(s, id, Closing), c, max)
  {
  }

  predicate IsOpened(s: State, id: SocketId, next: State) {
    id < |s.sockets| &&
    var c := s.sockets[id].category; var f := FeedOf(s, c);
    next == WithFeed(s.(sockets := s.sockets[id := Socket(c, Open, Topics(s.subscriptions, c))],
                        timers := s.timers - if f.timeoutTimer.Some? then {f.timeoutTimer.value} else {}),
                     c, f.(connecting := false, attempts := 0, timeoutTimer := None))
  }

  lemma OpenedKeepsInv(s: State, id: SocketId, max: nat)
    requires Inv(s, max) && Enabled(s, Opened(id))
    ensures Inv(Next(s, Opened(id), max), max)
  {
    var next := Next(s, Opened(id), max);
    var c := s.sockets[id].category;
    assert SocketOk(s, id);
    assert IsOpened(s, id, next) by {
      var f := FeedOf(s, c);
      assert f.timeoutTimer.None? ==> s.timers - {} == s.timers;
      assert s.sockets[id].streaming + Topics(s.subscriptions, c) == Topics(s.subscriptions, c);
      hide Inv, Topics;
    }
    InvIsInvBut(s, c, max);
    OpenedCategory(s, id, next, max);
    OpenedSockets(s, id, next);
    hide Consistent, CategoryOk, SocketsOk, Untouched, TimerIds, Next, IsOpened;
    OneCategoryKeepsInv(s, next, c, max);
  }

  lemma OpenedCategory(s: State, id: SocketId, next: State, max: nat)
    requires TimerIds(s) && StoppedOk(s) && IsOpened(s, id, next) && Registered(s, id)
      && CategoryOk(s, s.sockets[id].category, max)
    ensures CategoryOk(next, s.sockets[id].category, max) && TimerIds(next) && StoppedOk(next)
    ensures Untouched(s, next, Other(s.sockets[id].category))
  {
    hide Topics;
  }

  lemma OpenedSockets(s: State, id: SocketId, next: State)
    requires SocketsOk(s) && IsOpened(s, id, next) && Registered(s, id)
    ensures SocketsOk(next)
  {
    hide Topics;
    forall i | 0 <= i < |next.sockets|
      ensures SocketOk(next, i)
    {
      assert SocketOk(s, i);
    }
  }

  // Timers that fire.

  lemma ReconnectFires(s: State, id: TimerId, constructed: bool, max: nat)
    requires Inv(s, max) && id in s.timers && s.timers[id].Reconnect?
    ensures Inv(Next(s, Fire(id, constructed), max), max)
  {
    var c := s.timers[id].category;
    var f := FeedOf(s, c);
    var fired := WithFeed(s.(timers := s.timers - {id}), c, f.(timer := None, attempts := f.attempts + 1));
    InvIsInvBut(s, c, max);
    assert f.timer == Some(id);
    FireIsConnect(s, id, constructed, max);
    hide Inv, CategoryOk, Consistent, SocketsOk, TimerIds, StoppedOk, AfterConnect, Next;
    FiredConsistent(s, c, id, fired, max);
    FiredKeepsSockets(s, c, fired);
    ConnectKeepsInv(fired, c, constructed, max);
  }

  lemma FireIsConnect(s: State, id: TimerId, constructed: bool, max: nat)
    requires id in s.timers && s.timers[id].Reconnect?
    ensures var c := s.timers[id].category; var f := FeedOf(s, c);
      Next(s, Fire(id, constructed), max)
      == AfterConnect(WithFeed(s.(timers := s.timers - {id}), c, f.(timer := None, attempts := f.attempts + 1)), c,
        constructed, max)
  {
    hide AfterConnect;
  }

  lemma FiredConsistent(s: State, c: Category, id: TimerId, fired: State, max: nat)
    requires TimerIds(s) && StoppedOk(s) && Consistent(s, c, max) && CategoryOk(s, Other(c), max)
      && FeedOf(s, c).timer == Some(id)
    requires fired == WithFeed(s.(timers := s.timers - {id}), c,
      FeedOf(s, c).(timer := None, attempts := FeedOf(s, c).attempts + 1))
    ensures TimerIds(fired) && StoppedOk(fired) && Consistent(fired, c, max) && CategoryOk(fired, Other(c), max)
    ensures !FeedOf(fired, c).connecting
  {
    assert Untouched(s, fired, Other(c));
    UntouchedKeepsCategory(s, fired, Other(c), max);
  }

  lemma FiredKeepsSockets(s: State, c: Category, fired: State)
    requires SocketsOk(s) && fired.sockets == s.sockets && fired.subscriptions == s.subscriptions
    requires FeedOf(fired, Other(c)) == FeedOf(s, Other(c))
    requires FeedOf(fired, c).socket == FeedOf(s, c).socket && FeedOf(fired, c).connecting == FeedOf(s, c).connecting
    ensures SocketsOk(fired)
  {
    hide Topics;
    forall i | 0 <= i < |fired.sockets|
      ensures SocketOk(fired, i)
    {
      assert SocketOk(s, i);
    }
  }

  lemma TimeoutFires(s: State, id: TimerId, constructed: bool, max: nat)
    requires Inv(s, max) && id in s.timers && s.timers[id].ConnectTimeout?
    ensures Inv(Next(s, Fire(id, constructed), max), max)
  {
    var c := s.timers[id].category;
    var f := FeedOf(s, c);
    InvIsInvBut(s, c, max);
    assert f.timeoutTimer == Some(id) && f.connecting && f.socket == Some(s.timers[id].socket);
    assert s.sockets[f.socket.value].ready == Connecting;
    var down := WithFeed(CloseSocket(s, f.socket.value).(timers := s.timers - {id}), c,
      f.(connecting := false, timeoutTimer := None));
    assert Next(s, Fire(id, constructed), max) == ScheduleReconnect(down, c, max) by {
      hide Inv, ScheduleReconnect;
    }
    assert WentDown(s, c, {id}, down);
    DownThenScheduled(s, c, {id}, down, max);
  }

  // Stopping.

  lemma StopFeedKeeps(s: State, c: Category, max: nat)
    requires TimerIds(s) && SocketsOk(s) && Consistent(s, c, max)
    ensures var next := StopFeed(s, c);
      && TimerIds(next) && SocketsOk(next) && CategoryOk(next, c, max) && Untouched(s, next, Other(c))
      && FeedOf(next, c) == FeedOf(s, c).(socket := None, timer := None, timeoutTimer := None)
      && FeedOf(next, Other(c)) == FeedOf(s, Other(c)) && next.isStopped == s.isStopped
  {
    StopFeedEffect(s, c);
    var next := StopFeed(s, c);
    hide StopFeed;
    StoppedCategory(s, c, next, max);
    StoppedSockets(s, c, next, max);
    hide Consistent, CategoryOk, SocketsOk, Untouched, TimerIds, Handles;
  }

  predicate IsStoppedFeed(s: State, c: Category, next: State) {
    var f := FeedOf(s, c);
    next == WithFeed(s.(timers := s.timers - Handles(f), sockets := Dropped(s, c)), c,
                     f.(socket := None, timer := None, timeoutTimer := None))
  }

  lemma StoppedCategory(s: State, c: Category, next: State, max: nat)
    requires TimerIds(s) && Consistent(s, c, max) && IsStoppedFeed(s, c, next)
    ensures TimerIds(next) && CategoryOk(next, c, max) && Untouched(s, next, Other(c))
  {
  }

  lemma StoppedSockets(s: State, c: Category, next: State, max: nat)
    requires SocketsOk(s) && Consistent(s, c, max) && IsStoppedFeed(s, c, next)
    ensures SocketsOk(next)
  {
    hide Topics, Handles, TimersOk;
    forall i | 0 <= i < |next.sockets|
      ensures SocketOk(next, i)
    {
      assert SocketOk(s, i);
    }
  }

  lemma StoppedInOrder(s: State, stopped: State, max: nat)
    requires TimerIds(s) && CategoryOk(s, Linear, max) && CategoryOk(s, Spot, max) && stopped == s.(isStopped := true)
    ensures TimerIds(stopped) && CategoryOk(stopped, Linear, max) && CategoryOk(stopped, Spot, max)
  {
  }

  lemma DisconnectKeepsInv(s: State, max: nat)
    requires Inv(s, max)
    ensures Inv(AfterDisconnect(s), max)
    ensures AfterDisconnect(s).timers == map[]
  {
    hide StopFeed, SocketsOk;
    var stopped := s.(isStopped := true);
    FiredKeepsSockets(s, Linear, stopped);
    StoppedInOrder(s, stopped, max);
    StopFeedKeeps(stopped, Linear, max);
    var half := StopFeed(stopped, Linear);
    UntouchedKeepsCategory(stopped, half, Spot, max);
    StopFeedKeeps(half, Spot, max);
    UntouchedKeepsCategory(half, StopFeed(half, Spot), Linear, max);
    assert StoppedOk(AfterDisconnect(s));
    NoTimerWhileStopped(AfterDisconnect(s), max);
    hide Consistent, CategoryOk, Untouched, TimerIds;
  }

  /** While stopped nothing can fire. */
  lemma NoTimerWhileStopped(s: State, max: nat)
    requires StoppedOk(s) && s.isStopped && CategoryOk(s, Linear, max) && CategoryOk(s, Spot, max)
    ensures s.timers == map[]
  {
    assert forall id :: id in s.timers ==> s.timers[id].category != Linear && s.timers[id].category != Spot;
  }

  lemma CloseSpotKeepsInv(s: State, max: nat)
    requires Inv(s, max)
    ensures Inv(CloseSpot(s), max)
    ensures CloseSpot(s).spot == Idle && CloseSpot(s).linear == s.linear
  {
    hide CloseSpot, StopFeed, SocketsOk;
    var next := CloseSpot(s);
    var stopped := StopFeed(s, Spot);
    CloseSpotIsStop(s);
    StopFeedKeeps(s, Spot, max);
    IdleSpotSockets(stopped, next);
    IdleSpotCategory(s, stopped, next, max);
    hide CategoryOk, Untouched, TimerIds;
    OneCategoryKeepsInv(s, next, Spot, max);
  }

  lemma CloseSpotIsStop(s: State)
    ensures CloseSpot(s) == StopFeed(s, Spot).(spot := Idle)
  {
    StopFeedEffect(s, Spot);
    ClearEffect(s, Spot);
    hide StopFeed, ClearReconnectTimer, ClearConnectTimeout, Handles;
  }

  lemma IdleSpotCategory(s: State, stopped: State, next: State, max: nat)
    requires CategoryOk(stopped, Spot, max) && Untouched(s, stopped, Linear)
    requires stopped.spot.socket.None? && stopped.spot.timer.None? && stopped.spot.timeoutTimer.None?
      && next == stopped.(spot := Idle)
    ensures CategoryOk(next, Spot, max) && Untouched(s, next, Linear)
  {
  }

  lemma IdleSpotSockets(s: State, next: State)
    requires SocketsOk(s) && s.spot.socket.None? && next == s.(spot := Idle)
    ensures SocketsOk(next)
  {
    hide Topics;
    forall i | 0 <= i < |next.sockets|
      ensures SocketOk(next, i)
    {
      assert SocketOk(s, i);
    }
  }

  // Subscriptions.

  /** connect does not look at the subscriptions. */
  lemma ConnectIgnoresSubscriptions(s: State, subscriptions: set<Topic>, c: Category, constructed: bool, max: nat)
    ensures AfterConnect(s.(subscriptions := subscriptions), c, constructed, max)
            == AfterConnect(s, c, constructed, max).(subscriptions := subscriptions)
    ensures AfterConnect(s, c, constructed, max).subscriptions == s.subscriptions
  {
    var other := s.(subscriptions := subscriptions);
    if !FeedOf(s, c).connecting && !IsOpen(s, FeedOf(s, c).socket) {
      ConnectEffect(s, c, constructed, max);
      ConnectEffect(other, c, constructed, max);
      hide AfterConnect, Handles, IsOpen;
    }
  }

  /** Changing a topic and telling the open socket of its category keeps what the sockets stream. */
  lemma TopicKeepsInv(s: State, t: Topic, start: bool, max: nat)
    requires Inv(s, max)
    ensures var changed := s.(subscriptions := if start then s.subscriptions + {t} else s.subscriptions - {t});
      Inv(Send(changed, FeedOf(changed, t.category).socket, t, start), max)
  {
    var changed := s.(subscriptions := if start then s.subscriptions + {t} else s.subscriptions - {t});
    var next := Send(changed, FeedOf(changed, t.category).socket, t, start);
    InvIsInvBut(s, t.category, max);
    TopicKeepsSockets(s, t, start, next, max);
    TopicKeepsCategory(s, t, start, next, t.category, max);
    TopicKeepsCategory(s, t, start, next, Other(t.category), max);
    assert TimerIds(next) && StoppedOk(next);
    hide Consistent, CategoryOk, SocketsOk, TimerIds, StoppedOk;
  }

  predicate IsTold(s: State, t: Topic, start: bool, next: State) {
    var changed := s.(subscriptions := if start then s.subscriptions + {t} else s.subscriptions - {t});
    next == Send(changed, FeedOf(changed, t.category).socket, t, start)
  }

  lemma TopicKeepsCategory(s: State, t: Topic, start: bool, next: State, c: Category, max: nat)
    requires CategoryOk(s, c, max) && IsTold(s, t, start, next)
    ensures CategoryOk(next, c, max)
  {
    hide Topics;
  }

  lemma TopicKeepsSockets(s: State, t: Topic, start: bool, next: State, max: nat)
    requires SocketsOk(s) && Consistent(s, t.category, max) && IsTold(s, t, start, next)
    ensures SocketsOk(next)
  {
    hide TimersOk, Topics;
    forall c: Category
      ensures Topics(next.subscriptions, c) ==
              if c != t.category then Topics(s.subscriptions, c)
              else if start then Topics(s.subscriptions, c) + {t} else Topics(s.subscriptions, c) - {t}
    {
      TopicsChanged(s.subscriptions, t, c);
    }
    forall i | 0 <= i < |next.sockets|
      ensures SocketOk(next, i)
    {
      assert SocketOk(s, i);
    }
  }

  lemma TopicsChanged(subscriptions: set<Topic>, t: Topic, c: Category)
    ensures Topics(subscriptions + {t}, c)
      == if c == t.category then Topics(subscriptions, c) + {t} else Topics(subscriptions, c)
    ensures Topics(subscriptions - {t}, c)
      == if c == t.category then Topics(subscriptions, c) - {t} else Topics(subscriptions, c)
  {
  }

  lemma SubscribeKeepsInv(s: State, t: Topic, constructed: bool, max: nat)
    requires Inv(s, max)
    ensures Inv(AfterSubscribe(s, t, constructed, max), max)
  {
    hide AfterConnect, Send, Inv;
    if t.category == Spot {
      ConnectIgnoresSubscriptions(s, s.subscriptions + {t}, Spot, constructed, max);
      InvIsInvBut(s, Spot, max);
      ConnectKeepsInv(s, Spot, constructed, max);
      TopicKeepsInv(AfterConnect(s, Spot, constructed, max), t, true, max);
    } else {
      TopicKeepsInv(s, t, true, max);
    }
  }

  lemma UnsubscribeKeepsInv(s: State, t: Topic, max: nat)
    requires Inv(s, max)
    ensures Inv(AfterUnsubscribe(s, t), max)
  {
    hide CloseSpot, Send, Inv;
    TopicKeepsInv(s, t, false, max);
    var removed := s.(subscriptions := s.subscriptions - {t});
    CloseSpotKeepsInv(Send(removed, FeedOf(removed, t.category).socket, t, false), max);
  }

  lemma NextKeepsInv(s: State, e: Event, max: nat)
    requires Inv(s, max) && Enabled(s, e)
    ensures Inv(Next(s, e, max), max)
  {
    match e
    case Connect(c, constructed) =>
      InvIsInvBut(s, c, max);
      ConnectKeepsInv(s, c, constructed, max);
    case Disconnect => DisconnectKeepsInv(s, max);
    case Subscribe(t, constructed) => SubscribeKeepsInv(s, t, constructed, max);
    case Unsubscribe(t) => UnsubscribeKeepsInv(s, t, max);
    case Opened(id) => OpenedKeepsInv(s, id, max);
    case Failed(id) => DownKeepsInv(s, id, Closing, max);
    case Ended(id) => DownKeepsInv(s, id, Closed, max);
    case Fade(id) => FadeKeepsInv(s, id, max);
    case Fire(id, constructed) =>
      if s.timers[id].Reconnect? {
        ReconnectFires(s, id, constructed, max);
      } else {
        TimeoutFires(s, id, constructed, max);
      }
    hide Inv, AfterConnect, AfterDisconnect, AfterSubscribe, AfterUnsubscribe, OnDown, SetReady;
  }

  lemma {:induction false} PlayKeepsInv(events: seq<Event>, max: nat)
    requires Play(events, max).Some?
    ensures Inv(Play(events, max).value, max)
  {
    if events != [] {
      var front := events[..|events| - 1];
      PlayKeepsInv(front, max);
      NextKeepsInv(Play(front, max).value, events[|events| - 1], max);
      hide Inv, Next, Enabled;
    }
  }

  // ----- Over every order of events -----

  predicate Live(s: State, id: SocketId) {
    id < |s.sockets| && (s.sockets[id].ready == Connecting || s.sockets[id].ready == Open)
  }

  /** A category never has two live sockets, so no candle stream is doubled; an open one streams what is subscribed. */
  lemma OneLiveSocket(events: seq<Event>, max: nat, i: SocketId, j: SocketId)
    requires Play(events, max).Some?
    requires var s := Play(events, max).value;
      Live(s, i) && Live(s, j) && s.sockets[i].category == s.sockets[j].category
    ensures i == j
    ensures var s := Play(events, max).value;
      s.sockets[i].ready == Open ==> s.sockets[i].streaming == Topics(s.subscriptions, s.sockets[i].category)
  {
    PlayKeepsInv(events, max);
    var s := Play(events, max).value;
    assert SocketOk(s, i) && SocketOk(s, j);
    hide Play, Consistent, CategoryOk, Topics;
  }

  /** One reconnect timer at most, none while connecting, no timer while stopped, and never too many attempts. */
  lemma ReconnectIsSingleFlight(events: seq<Event>, max: nat, c: Category)
    requires Play(events, max).Some?
    ensures var s := Play(events, max).value;
      && (forall a, b ::
            a in s.timers && b in s.timers && s.timers[a] == Reconnect(c) && s.timers[b] == Reconnect(c) ==> a == b)
      && (FeedOf(s, c).connecting ==> forall a :: a in s.timers ==> s.timers[a] != Reconnect(c))
      && (s.isStopped ==> s.timers == map[])
      && FeedOf(s, c).attempts <= max
  {
    PlayKeepsInv(events, max);
    var s := Play(events, max).value;
    InvIsInvBut(s, c, max);
    if s.isStopped {
      NoTimerWhileStopped(s, max);
    }
    hide Play, SocketsOk, TimerIds;
  }

  /** A connect timeout that can still fire is bound to the socket that is connecting. */
  lemma TimeoutsAreForTheHandshake(events: seq<Event>, max: nat, id: TimerId)
    requires Play(events, max).Some? && id in Play(events, max).value.timers
      && Play(events, max).value.timers[id].ConnectTimeout?
    ensures var s := Play(events, max).value; var t := s.timers[id];
      && FeedOf(s, t.category).socket == Some(t.socket) && FeedOf(s, t.category).connecting
      && t.socket < |s.sockets| && s.sockets[t.socket].ready == Connecting
  {
    PlayKeepsInv(events, max);
    var s := Play(events, max).value;
    InvIsInvBut(s, s.timers[id].category, max);
    hide Play, SocketsOk, TimerIds, StoppedOk;
  }

  /** A registered category is never left hanging. */
  lemma NeverStranded(events: seq<Event>, max: nat, c: Category)
    requires Play(events, max).Some? && FeedOf(Play(events, max).value, c).socket.Some?
    ensures !Play(events, max).value.isStopped && Alive(Play(events, max).value, c, max)
  {
    PlayKeepsInv(events, max);
    InvIsInvBut(Play(events, max).value, c, max);
    hide Play, SocketsOk, TimerIds, Consistent, Alive;
  }

  /** Events of a replaced or forgotten socket change nothing but that socket. */
  lemma ForgottenEventsChangeNothing(s: State, id: SocketId, max: nat)
    requires id < |s.sockets| && !Registered(s, id)
    ensures Enabled(s, Opened(id)) ==> Next(s, Opened(id), max) == SetReady(s, id, Open)
    ensures Enabled(s, Failed(id)) ==> Next(s, Failed(id), max) == SetReady(s, id, Closing)
    ensures Enabled(s, Ended(id)) ==> Next(s, Ended(id), max) == SetReady(s, id, Closed)
  {
    hide ScheduleReconnect, Topics, ClearConnectTimeout;
  }

  // ----- When connecting works -----

  /** Connecting without a socket: nothing is left that would end the handshake. */
  predicate Stuck(s: State, c: Category) {
    FeedOf(s, c).connecting && FeedOf(s, c).socket.None?
  }

  /** connect gives a category a way on exactly when it is not stuck. */
  lemma ConnectRevives(s: State, c: Category, constructed: bool, max: nat)
    requires Inv(s, max) && FeedOf(s, c).attempts < max
    ensures Alive(AfterConnect(s, c, constructed, max), c, max) <==> !Stuck(s, c)
  {
  }

  /** After a disconnect, connect opens a socket exactly when no handshake was under way at the disconnect. */
  lemma ConnectAfterDisconnect(events: seq<Event>, max: nat, c: Category)
    requires Play(events, max).Some?
    ensures var s := Play(events, max).value;
      FeedOf(AfterConnect(AfterDisconnect(s), c, true, max), c).socket.Some? <==> !FeedOf(s, c).connecting
  {
    var s := Play(events, max).value;
    var stopped := AfterDisconnect(s);
    DisconnectEffect(s);
    if !FeedOf(stopped, c).connecting {
      ConnectEffect(stopped, c, true, max);
    }
    hide Play, Handles, AfterDisconnect, StopFeed;
  }

  lemma DisconnectEffect(s: State)
    ensures var r := AfterDisconnect(s);
      && r.isStopped && r.subscriptions == s.subscriptions
      && r.linear == s.linear.(socket := None, timer := None, timeoutTimer := None)
      && r.spot == s.spot.(socket := None, timer := None, timeoutTimer := None)
  {
    var stopped := s.(isStopped := true);
    StopFeedEffect(stopped, Linear);
    StopFeedEffect(StopFeed(stopped, Linear), Spot);
    hide StopFeed, Handles, Dropped;
  }

  /** Once the linear feed is stuck, no call and no event ever frees it. */
  lemma {:induction false} StuckForGood(events: seq<Event>, more: seq<Event>, max: nat)
    requires Play(events, max).Some? && Stuck(Play(events, max).value, Linear)
    requires Play(events + more, max).Some?
    ensures Stuck(Play(events + more, max).value, Linear)
    decreases |more|
  {
    if more == [] {
      assert events + more == events;
    } else {
      var last := |more| - 1;
      assert (events + more)[..|events + more| - 1] == events + more[..last];
      assert (events + more)[|events + more| - 1] == more[last];
      StuckForGood(events, more[..last], max);
      PlayKeepsInv(events + more[..last], max);
      NextKeepsStuck(Play(events + more[..last], max).value, more[last], max);
    }
    hide Next, Enabled, Inv, Stuck;
  }

  lemma NextKeepsStuck(s: State, e: Event, max: nat)
    requires Inv(s, max) && Enabled(s, e) && Stuck(s, Linear)
    ensures Stuck(Next(s, e, max), Linear)
  {
    match e {
      case Connect(c, constructed) => OtherFeedKept(s, constructed, max);
      case Disconnect => DisconnectEffect(s);
      case Subscribe(t, constructed) => OtherFeedKept(s.(subscriptions := s.subscriptions + {t}), constructed, max);
      case Unsubscribe(t) => UnsubscribeKeepsLinear(s, t, max);
      case Fire(_, _) => FireKeepsStuck(s, e, max);
      case _ => SocketKeepsStuck(s, e, max);
    }
    hide Inv, AfterConnect, AfterDisconnect, AfterUnsubscribe, OnOpen, OnDown, SetReady, OnConnectTimeout,
      OnReconnectTimer, Topics;
  }

  lemma UnsubscribeKeepsLinear(s: State, t: Topic, max: nat)
    requires Inv(s, max)
    ensures AfterUnsubscribe(s, t).linear == s.linear
  {
    var removed := s.(subscriptions := s.subscriptions - {t});
    TopicKeepsInv(s, t, false, max);
    CloseSpotKeepsInv(Send(removed, FeedOf(removed, t.category).socket, t, false), max);
    hide Inv, CloseSpot, Topics;
  }

  lemma SocketKeepsStuck(s: State, e: Event, max: nat)
    requires Enabled(s, e) && (e.Opened? || e.Failed? || e.Ended? || e.Fade?) && Stuck(s, Linear)
    ensures Stuck(Next(s, e, max), Linear)
  {
    hide Topics;
  }

  lemma FireKeepsStuck(s: State, e: Event, max: nat)
    requires Inv(s, max) && Enabled(s, e) && e.Fire? && Stuck(s, Linear)
    ensures Stuck(Next(s, e, max), Linear)
  {
    assert TimersOk(s, Linear);
    hide Inv, AfterConnect;
    if s.timers[e.timer].Reconnect? {
      var f := s.spot;
      OtherFeedKept(s.(timers := s.timers - {e.timer}, spot := f.(timer := None, attempts := f.attempts + 1)),
        e.constructed, max);
    }
  }

  lemma OtherFeedKept(s: State, constructed: bool, max: nat)
    ensures AfterConnect(s, Spot, constructed, max).linear == s.linear
  {
  }

  lemma DisconnectMidHandshake(max: nat)
    ensures var events := [Connect(Linear, true), Disconnect];
      Play(events, max).Some? && Stuck(Play(events, max).value, Linear)
  {
    assert [Connect(Linear, true), Disconnect][..1] == [Connect(Linear, true)] && [Connect(Linear, true)][..0] == [];
    assert Play([Connect(Linear, true)], max) == Some(AfterConnect(Initial, Linear, true, max));
    ConnectEffect(Initial, Linear, true, max);
    DisconnectEffect(AfterConnect(Initial, Linear, true, max));
    hide AfterConnect, AfterDisconnect, Handles;
  }

  /** Without a socket, a reconnect is pending or the attempts are exhausted. */
  predicate HasWay(s: State, c: Category, max: nat) {
    !s.isStopped && (FeedOf(s, c).socket.None? ==>
      !FeedOf(s, c).connecting && (FeedOf(s, c).timer.Some? || FeedOf(s, c).attempts >= max))
  }

  lemma ConnectKeepsWay(s: State, c: Category, d: Category, constructed: bool, max: nat)
    requires HasWay(s, c, max) || (!s.isStopped && c == d && !FeedOf(s, c).connecting)
    ensures HasWay(AfterConnect(s, d, constructed, max), c, max)
  {
    if !FeedOf(s, d).connecting && !IsOpen(s, FeedOf(s, d).socket) {
      ConnectEffect(s, d, constructed, max);
      hide AfterConnect, Handles, IsOpen;
    }
  }

  lemma SocketKeepsWay(s: State, c: Category, e: Event, max: nat)
    requires HasWay(s, c, max) && Enabled(s, e) && (e.Opened? || e.Failed? || e.Ended? || e.Fade?)
    ensures HasWay(Next(s, e, max), c, max)
  {
    hide Topics;
  }

  lemma FireKeepsWay(s: State, c: Category, e: Event, max: nat)
    requires HasWay(s, c, max) && Enabled(s, e) && e.Fire?
      && (s.timers[e.timer] == Reconnect(c) ==> !FeedOf(s, c).connecting)
    ensures HasWay(Next(s, e, max), c, max)
  {
    hide AfterConnect;
    if s.timers[e.timer].Reconnect? {
      var d := s.timers[e.timer].category;
      var f := FeedOf(s, d);
      var fired := WithFeed(s.(timers := s.timers - {e.timer}), d, f.(timer := None, attempts := f.attempts + 1));
      ConnectKeepsWay(fired, c, d, e.constructed, max);
    }
  }

  lemma SubscribeKeepsWay(s: State, c: Category, t: Topic, constructed: bool, max: nat)
    requires HasWay(s, c, max)
    ensures HasWay(AfterSubscribe(s, t, constructed, max), c, max)
  {
    ConnectKeepsWay(s.(subscriptions := s.subscriptions + {t}), c, Spot, constructed, max);
    hide AfterConnect;
  }

  lemma UnsubscribeKeepsWay(s: State, t: Topic, max: nat)
    requires Inv(s, max) && HasWay(s, Linear, max)
    ensures HasWay(AfterUnsubscribe(s, t), Linear, max)
  {
    var removed := s.(subscriptions := s.subscriptions - {t});
    var sent := Send(removed, FeedOf(removed, t.category).socket, t, false);
    TopicKeepsInv(s, t, false, max);
    CloseSpotKeepsInv(sent, max);
    assert CloseSpot(sent).isStopped == s.isStopped;
    hide CloseSpot, Topics, Inv;
  }

  /** Once connect gave a category a way on, only a disconnect, or an unsubscribe for the spot feed, takes it away. */
  lemma AliveStaysAlive(s: State, c: Category, e: Event, max: nat)
    requires Inv(s, max) && Enabled(s, e) && !s.isStopped && Alive(s, c, max) && !Stuck(s, c)
    requires e != Disconnect && !(e.Unsubscribe? && c == Spot)
    ensures var next := Next(s, e, max); !next.isStopped && Alive(next, c, max) && !Stuck(next, c)
  {
    InvIsInvBut(s, c, max);
    assert HasWay(s, c, max);
    match e {
      case Connect(d, constructed) => ConnectKeepsWay(s, c, d, constructed, max);
      case Subscribe(t, constructed) => SubscribeKeepsWay(s, c, t, constructed, max);
      case Unsubscribe(t) => UnsubscribeKeepsWay(s, t, max);
      case Fire(_, _) => FireKeepsWay(s, c, e, max);
      case _ => SocketKeepsWay(s, c, e, max);
    }
    NextKeepsInv(s, e, max);
    InvIsInvBut(Next(s, e, max), c, max);
    hide Inv, AfterConnect, AfterSubscribe, AfterUnsubscribe, OnDown, SetReady, OnOpen, OnConnectTimeout,
      OnReconnectTimer, Consistent;
  }

  // ----- The service -----

  /** The service and the sockets and timers it drives. */
  class FeedService {
    const maxReconnectAttempts: nat
    var isStopped: bool
    var linear: Feed
    var spot: Feed
    var subscriptions: set<Topic>
    var sockets: seq<Socket>
    var timers: map<TimerId, Timer>
    var nextTimer: TimerId

    function View(): State
      reads this
    {
      State(isStopped, linear, spot, subscriptions, sockets, timers, nextTimer)
    }

    constructor (maxReconnectAttempts: nat)
      ensures this.maxReconnectAttempts == maxReconnectAttempts && View() == Initial
    {
      this.maxReconnectAttempts := maxReconnectAttempts;
      isStopped := false;
      linear := Idle;
      spot := Idle;
      subscriptions := {};
      sockets := [];
      timers := map[];
      nextTimer := 0;
    }

    method SetFeed(c: Category, f: Feed)
      modifies this`linear, this`spot
      ensures View() == WithFeed(old(View()), c, f)
    {
      match c
      case Linear => linear := f;
      case Spot => spot := f;
    }

    method CancelReconnect(c: Category)
      modifies this
      ensures View() == ClearReconnectTimer(old(View()), c)
    {
      var f := FeedOf(View(), c);
      if f.timer.Some? {
        timers := timers - {f.timer.value};
        SetFeed(c, f.(timer := None));
      }
    }

    method CancelTimeout(c: Category)
      modifies this
      ensures View() == ClearConnectTimeout(old(View()), c)
    {
      var f := FeedOf(View(), c);
      if f.timeoutTimer.Some? {
        timers := timers - {f.timeoutTimer.value};
        SetFeed(c, f.(timeoutTimer := None));
      }
    }

    method ArmTimeout(c: Category, socket: SocketId)
      modifies this
      ensures View() == ArmConnectTimeout(old(View()), c, socket)
    {
      CancelTimeout(c);
      timers := timers[nextTimer := ConnectTimeout(c, socket)];
      SetFeed(c, FeedOf(View(), c).(timeoutTimer := Some(nextTimer)));
      nextTimer := nextTimer + 1;
    }

    method Schedule(c: Category)
      modifies this
      ensures View() == ScheduleReconnect(old(View()), c, maxReconnectAttempts)
    {
      if isStopped {
        return;
      }
      var f := FeedOf(View(), c);
      if f.timer.Some? {
        return;
      }
      if f.attempts >= maxReconnectAttempts {
        return;
      }
      timers := timers[nextTimer := Reconnect(c)];
      SetFeed(c, f.(timer := Some(nextTimer)));
      nextTimer := nextTimer + 1;
    }

    method Connect(c: Category, constructed: bool)
      modifies this
      ensures View() == AfterConnect(old(View()), c, constructed, maxReconnectAttempts)
    {
      hide ClearReconnectTimer, ClearConnectTimeout, ArmConnectTimeout, ScheduleReconnect;
      var f := FeedOf(View(), c);
      if f.connecting || IsOpen(View(), f.socket) {
        return;
      }
      CancelReconnect(c);
      CancelTimeout(c);
      SetFeed(c, FeedOf(View(), c).(connecting := true));
      isStopped := false;
      if constructed {
        var socket := |sockets|;
        sockets := sockets + [Socket(c, Connecting, {})];
        SetFeed(c, FeedOf(View(), c).(socket := Some(socket)));
        ArmTimeout(c, socket);
      } else {
        SetFeed(c, FeedOf(View(), c).(connecting := false));
        Schedule(c);
      }
    }

    method Forget(c: Category)
      modifies this
      ensures View() == CloseAndForget(old(View()), c)
    {
      var f := FeedOf(View(), c);
      if f.socket.Some? {
        if f.socket.value < |sockets| && sockets[f.socket.value].ready != Closed {
          sockets := sockets[f.socket.value := sockets[f.socket.value].(ready := Closing)];
        }
        SetFeed(c, f.(socket := None));
      }
    }

    method Disconnect()
      modifies this
      ensures View() == AfterDisconnect(old(View()))
    {
      hide ClearReconnectTimer, ClearConnectTimeout, CloseAndForget;
      isStopped := true;
      CancelReconnect(Linear);
      CancelTimeout(Linear);
      Forget(Linear);
      CancelReconnect(Spot);
      CancelTimeout(Spot);
      Forget(Spot);
    }

    method CloseSpotSocket()
      modifies this
      ensures View() == CloseSpot(old(View()))
    {
      hide ClearReconnectTimer, ClearConnectTimeout, CloseAndForget;
      CancelReconnect(Spot);
      CancelTimeout(Spot);
      spot := spot.(connecting := false, attempts := 0);
      Forget(Spot);
    }

    method Tell(socket: Option<SocketId>, t: Topic, start: bool)
      modifies this`sockets
      ensures View() == Send(old(View()), socket, t, start)
    {
      if IsOpen(View(), socket) {
        var id := socket.value;
        var streaming := sockets[id].streaming;
        sockets := sockets[id := sockets[id].(streaming := if start then streaming + {t} else streaming - {t})];
      }
    }

    method Subscribe(t: Topic, constructed: bool)
      modifies this
      ensures View() == AfterSubscribe(old(View()), t, constructed, maxReconnectAttempts)
    {
      hide AfterConnect, Send;
      subscriptions := subscriptions + {t};
      if t.category == Spot {
        Connect(Spot, constructed);
      }
      Tell(FeedOf(View(), t.category).socket, t, true);
    }

    method Unsubscribe(t: Topic)
      modifies this
      ensures View() == AfterUnsubscribe(old(View()), t)
    {
      hide CloseSpot, Send;
      subscriptions := subscriptions - {t};
      Tell(FeedOf(View(), t.category).socket, t, false);
      if t.category == Spot && Topics(subscriptions, Spot) == {} {
        CloseSpotSocket();
      }
    }

    /** Subscribe anew to every topic of a category, in any order. */
    method ResubscribeAll(c: Category, id: SocketId)
      requires id < |sockets|
      modifies this`sockets
      ensures sockets == old(sockets)[id :=
        old(sockets)[id].(streaming := old(sockets)[id].streaming + Topics(subscriptions, c))]
    {
      ghost var before := sockets[id];
      var rest := subscriptions;
      assert Topics(subscriptions - rest, c) == {};
      assert before.streaming + {} == before.streaming;
      assert before.(streaming := before.streaming) == before;
      while rest != {}
        invariant rest <= subscriptions && |sockets| == |old(sockets)|
        invariant sockets == old(sockets)[id :=
          before.(streaming := before.streaming + Topics(subscriptions - rest, c))]
        decreases |rest|
      {
        var t: Topic :| t in rest;
        assert subscriptions - (rest - {t}) == subscriptions - rest + {t};
        TopicsChanged(subscriptions - rest, t, c);
        ghost var told := Topics(subscriptions - rest, c);
        assert before.streaming + (told + {t}) == before.streaming + told + {t};
        rest := rest - {t};
        if t.category == c {
          sockets := sockets[id := sockets[id].(streaming := sockets[id].streaming + {t})];
        }
      }
      assert subscriptions - {} == subscriptions;
    }

    method HandleOpen(id: SocketId)
      requires id < |sockets|
      modifies this
      ensures View() == OnOpen(old(View()), id)
    {
      hide Topics;
      if !Registered(View(), id) {
        return;
      }
      var c := sockets[id].category;
      CancelTimeout(c);
      SetFeed(c, FeedOf(View(), c).(connecting := false, attempts := 0));
      ResubscribeAll(c, id);
    }

    /** The handlers of close and of error. */
    method HandleDown(id: SocketId)
      requires id < |sockets|
      modifies this
      ensures View() == OnDown(old(View()), id, maxReconnectAttempts)
    {
      hide ScheduleReconnect;
      if !Registered(View(), id) {
        return;
      }
      var c := sockets[id].category;
      CancelTimeout(c);
      SetFeed(c, FeedOf(View(), c).(connecting := false));
      if !isStopped {
        Schedule(c);
      }
    }

    method HandleConnectTimeout(c: Category, socket: SocketId)
      modifies this
      ensures View() == OnConnectTimeout(old(View()), c, socket, maxReconnectAttempts)
    {
      hide ScheduleReconnect;
      SetFeed(c, FeedOf(View(), c).(timeoutTimer := None));
      if FeedOf(View(), c).socket != Some(socket) || IsOpen(View(), Some(socket)) {
        return;
      }
      SetFeed(c, FeedOf(View(), c).(connecting := false));
      if socket < |sockets| && sockets[socket].ready != Closed {
        sockets := sockets[socket := sockets[socket].(ready := Closing)];
      }
      Schedule(c);
    }

    method HandleReconnectTimer(c: Category, constructed: bool)
      modifies this
      ensures View() == OnReconnectTimer(old(View()), c, constructed, maxReconnectAttempts)
    {
      hide AfterConnect;
      var f := FeedOf(View(), c);
      SetFeed(c, f.(timer := None, attempts := f.attempts + 1));
      Connect(c, constructed);
    }
  }
}
