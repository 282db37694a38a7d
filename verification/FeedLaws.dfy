/** The reconnect budget of the candle feed, and what a drop leads to (src/trading/bybit-websocket.ts). */
module FeedLaws {
  import opened Prelude
  import opened FeedReconnect

  // ----- How many attempts are counted -----

  /** A reconnect timer of the category fires. */
  predicate Retries(s: State, e: Event, c: Category) {
    e.Fire? && e.timer in s.timers && s.timers[e.timer] == Reconnect(c)
  }

  /** The registered socket of the category opens. */
  predicate Opens(s: State, e: Event, c: Category) {
    e.Opened? && e.socket < |s.sockets| && s.sockets[e.socket].category == c && FeedOf(s, c).socket == Some(e.socket)
  }

  /** An unsubscribe leaves no spot topic, so that the spot feed is closed. */
  predicate ClosesSpot(s: State, e: Event, c: Category) {
    c == Spot && e.Unsubscribe? && e.topic.category == Spot
    && forall t :: t in s.subscriptions && t.category == Spot ==> t == e.topic
  }

  /** The reconnect timers of a category that fired since its socket last opened or the spot feed was last closed. */
  function Retried(events: seq<Event>, max: nat, c: Category): nat {
    if events == [] then 0
    else
      var front, e := events[..|events| - 1], events[|events| - 1];
      var s := Play(front, max);
      if s.None? then 0
      else if Opens(s.value, e, c) || ClosesSpot(s.value, e, c) then 0
      else Retried(front, max, c) + if Retries(s.value, e, c) then 1 else 0
  }

  function Attempts(s: State, c: Category): nat {
    FeedOf(s, c).attempts
  }

  lemma ConnectKeepsAttempts(s: State, c: Category, d: Category, constructed: bool, max: nat)
    ensures Attempts(AfterConnect(s, c, constructed, max), d) == Attempts(s, d)
  {
  }

  lemma StopKeepsAttempts(s: State, c: Category, d: Category)
    ensures Attempts(StopFeed(s, c), d) == Attempts(s, d)
  {
  }

  lemma SendKeepsFeeds(s: State, socket: Option<SocketId>, t: Topic, start: bool, c: Category)
    ensures FeedOf(Send(s, socket, t, start), c) == FeedOf(s, c)
    ensures Send(s, socket, t, start).subscriptions == s.subscriptions
  {
  }

  lemma UnsubscribeAttempts(s: State, t: Topic, c: Category)
    ensures Attempts(AfterUnsubscribe(s, t), c) == if ClosesSpot(s, Unsubscribe(t), c) then 0 else Attempts(s, c)
  {
    var removed := s.(subscriptions := s.subscriptions - {t});
    var sent := Send(removed, FeedOf(removed, t.category).socket, t, false);
    SendKeepsFeeds(removed, FeedOf(removed, t.category).socket, t, false, c);
    SendKeepsFeeds(removed, FeedOf(removed, t.category).socket, t, false, Spot);
    hide Send;
    if t.category == Spot {
      assert Topics(sent.subscriptions, Spot) == {} <==>
        forall u :: u in s.subscriptions && u.category == Spot ==> u == t by {
        if Topics(sent.subscriptions, Spot) == {} {
          forall u | u in s.subscriptions && u.category == Spot
            ensures u == t
          {
            assert u !in Topics(sent.subscriptions, Spot);
          }
        }
      }
      CloseSpotAttempts(sent, c);
      hide CloseSpot, Topics;
    }
  }

  lemma CloseSpotAttempts(s: State, c: Category)
    ensures Attempts(CloseSpot(s), c) == if c == Spot then 0 else Attempts(s, c)
  {
  }

  lemma SocketAttempts(s: State, e: Event, c: Category, max: nat)
    requires Enabled(s, e) && (e.Opened? || e.Failed? || e.Ended? || e.Fade?)
    ensures Attempts(Next(s, e, max), c) == if Opens(s, e, c) then 0 else Attempts(s, c)
  {
    hide Topics;
  }

  lemma FireAttempts(s: State, e: Event, c: Category, max: nat)
    requires Enabled(s, e) && e.Fire?
    ensures Attempts(Next(s, e, max), c) == Attempts(s, c) + if Retries(s, e, c) then 1 else 0
  {
    hide AfterConnect, OnConnectTimeout;
    var fired := s.(timers := s.timers - {e.timer});
    match s.timers[e.timer]
    case Reconnect(d) =>
      var f := FeedOf(fired, d);
      ConnectKeepsAttempts(WithFeed(fired, d, f.(timer := None, attempts := f.attempts + 1)), d, c, e.constructed, max);
    case ConnectTimeout(d, socket) => TimeoutKeepsAttempts(fired, d, socket, c, max);
  }

  lemma TimeoutKeepsAttempts(s: State, d: Category, socket: SocketId, c: Category, max: nat)
    ensures Attempts(OnConnectTimeout(s, d, socket, max), c) == Attempts(s, c)
  {
  }

  lemma NextAttempts(s: State, e: Event, c: Category, max: nat)
    requires Enabled(s, e)
    ensures Attempts(Next(s, e, max), c)
      == if Opens(s, e, c) || ClosesSpot(s, e, c) then 0 else Attempts(s, c) + if Retries(s, e, c) then 1 else 0
  {
    match e {
      case Connect(d, constructed) => ConnectKeepsAttempts(s, d, c, constructed, max);
      case Disconnect =>
        StopKeepsAttempts(s.(isStopped := true), Linear, c);
        StopKeepsAttempts(StopFeed(s.(isStopped := true), Linear), Spot, c);
      case Subscribe(t, constructed) =>
        var added := s.(subscriptions := s.subscriptions + {t});
        ConnectKeepsAttempts(added, Spot, c, constructed, max);
        var connected := if t.category == Spot then AfterConnect(added, Spot, constructed, max) else added;
        SendKeepsFeeds(connected, FeedOf(connected, t.category).socket, t, true, c);
      case Unsubscribe(t) => UnsubscribeAttempts(s, t, c);
      case Fire(_, _) => FireAttempts(s, e, c, max);
      case _ => SocketAttempts(s, e, c, max);
    }
    hide AfterConnect, StopFeed, AfterUnsubscribe, Send, OnOpen, OnDown, OnReconnectTimer, OnConnectTimeout;
  }

  /** The attempts counted are the reconnects tried since the socket last opened, or the spot feed was last closed. */
  lemma {:induction false} AttemptsAreRetries(events: seq<Event>, max: nat, c: Category)
    requires Play(events, max).Some?
    ensures Attempts(Play(events, max).value, c) == Retried(events, max, c)
  {
    if events != [] {
      var front := events[..|events| - 1];
      AttemptsAreRetries(front, max, c);
      NextAttempts(Play(front, max).value, events[|events| - 1], c, max);
    }
    hide Next, Enabled, Attempts, Opens, ClosesSpot, Retries;
  }

  // ----- An open socket has its full budget -----

  /** While its registered socket is open, nothing is counted and no reconnect is pending. */
  predicate Fresh(s: State, c: Category) {
    IsOpen(s, FeedOf(s, c).socket) ==> FeedOf(s, c).attempts == 0 && FeedOf(s, c).timer.None?
  }

  lemma ConnectKeepsFresh(s: State, c: Category, d: Category, constructed: bool, max: nat)
    requires Fresh(s, d)
    ensures Fresh(AfterConnect(s, c, constructed, max), d)
  {
    hide AfterConnect, Handles;
    ConnectIdles(s, c, constructed, max);
    if !FeedOf(s, c).connecting && !IsOpen(s, FeedOf(s, c).socket) {
      ConnectEffect(s, c, constructed, max);
    }
  }

  lemma ConnectIdles(s: State, c: Category, constructed: bool, max: nat)
    ensures FeedOf(s, c).connecting || IsOpen(s, FeedOf(s, c).socket) ==> AfterConnect(s, c, constructed, max) == s
  {
  }

  lemma SendKeepsFresh(s: State, socket: Option<SocketId>, t: Topic, start: bool, c: Category)
    requires Fresh(s, c)
    ensures Fresh(Send(s, socket, t, start), c)
  {
  }

  lemma SubscribeKeepsFresh(s: State, t: Topic, constructed: bool, c: Category, max: nat)
    requires Fresh(s, c)
    ensures Fresh(AfterSubscribe(s, t, constructed, max), c)
  {
    var added := s.(subscriptions := s.subscriptions + {t});
    ConnectKeepsFresh(added, Spot, c, constructed, max);
    var connected := if t.category == Spot then AfterConnect(added, Spot, constructed, max) else added;
    hide AfterConnect;
    SendKeepsFresh(connected, FeedOf(connected, t.category).socket, t, true, c);
  }

  lemma UnsubscribeKeepsFresh(s: State, t: Topic, c: Category)
    requires Fresh(s, c)
    ensures Fresh(AfterUnsubscribe(s, t), c)
  {
    var removed := s.(subscriptions := s.subscriptions - {t});
    var sent := Send(removed, FeedOf(removed, t.category).socket, t, false);
    SendKeepsFresh(removed, FeedOf(removed, t.category).socket, t, false, c);
    hide Send, Topics;
    CloseSpotKeepsFresh(sent, c);
    hide CloseSpot;
  }

  lemma CloseSpotKeepsFresh(s: State, c: Category)
    requires Fresh(s, c)
    ensures Fresh(CloseSpot(s), c)
  {
  }

  lemma DisconnectKeepsFresh(s: State, c: Category)
    ensures Fresh(AfterDisconnect(s), c)
  {
    DisconnectEffect(s);
    hide AfterDisconnect;
  }

  lemma OpenKeepsFresh(s: State, id: SocketId, c: Category, max: nat)
    requires Inv(s, max) && Fresh(s, c) && Enabled(s, Opened(id))
    ensures Fresh(Next(s, Opened(id), max), c)
  {
    InvIsInvBut(s, c, max);
    assert SocketOk(s, id);
    hide Topics, SocketsOk, StoppedOk, TimerIds, TimersOk, Alive, Inv, CategoryOk;
  }

  lemma DownKeepsFresh(s: State, id: SocketId, ready: ReadyState, c: Category, max: nat)
    requires Fresh(s, c) && id < |s.sockets| && ready != Open
    ensures Fresh(OnDown(SetReady(s, id, ready), id, max), c) && Fresh(SetReady(s, id, ready), c)
  {
  }

  lemma SocketKeepsFresh(s: State, e: Event, c: Category, max: nat)
    requires Inv(s, max) && Fresh(s, c) && Enabled(s, e) && (e.Opened? || e.Failed? || e.Ended? || e.Fade?)
    ensures Fresh(Next(s, e, max), c)
  {
    hide Inv, Fresh, OnOpen, OnDown, SetReady;
    match e
    case Opened(id) => OpenKeepsFresh(s, id, c, max);
    case Failed(id) => DownKeepsFresh(s, id, Closing, c, max);
    case Ended(id) => DownKeepsFresh(s, id, Closed, c, max);
    case Fade(id) => DownKeepsFresh(s, id, Closing, c, max);
  }

  lemma FireKeepsFresh(s: State, e: Event, c: Category, max: nat)
    requires Inv(s, max) && Fresh(s, c) && Enabled(s, e) && e.Fire?
    ensures Fresh(Next(s, e, max), c)
  {
    hide Inv, Fresh, AfterConnect, OnConnectTimeout;
    var fired := s.(timers := s.timers - {e.timer});
    match s.timers[e.timer]
    case Reconnect(d) =>
      var f := FeedOf(fired, d);
      var counted := WithFeed(fired, d, f.(timer := None, attempts := f.attempts + 1));
      CountedIsFresh(s, e.timer, d, c, max);
      ConnectKeepsFresh(counted, d, c, e.constructed, max);
    case ConnectTimeout(d, socket) =>
      TimeoutKeepsFresh(s, fired, d, socket, c, max);
  }

  lemma CountedIsFresh(s: State, id: TimerId, d: Category, c: Category, max: nat)
    requires Inv(s, max) && Fresh(s, c) && id in s.timers && s.timers[id] == Reconnect(d)
    ensures var fired := s.(timers := s.timers - {id}); var f := FeedOf(fired, d);
      Fresh(WithFeed(fired, d, f.(timer := None, attempts := f.attempts + 1)), c)
  {
    InvIsInvBut(s, d, max);
    assert FeedOf(s, d).timer == Some(id);
    hide Inv, InvBut, CategoryOk, TimersOk;
  }

  lemma TimeoutKeepsFresh(s: State, fired: State, d: Category, socket: SocketId, c: Category, max: nat)
    requires Fresh(s, c) && fired == s.(timers := fired.timers)
    ensures Fresh(OnConnectTimeout(fired, d, socket, max), c)
  {
  }

  lemma NextKeepsFresh(s: State, e: Event, c: Category, max: nat)
    requires Inv(s, max) && Fresh(s, c) && Enabled(s, e)
    ensures Fresh(Next(s, e, max), c)
  {
    match e {
      case Connect(d, constructed) =>
        ConnectKeepsFresh(s, d, c, constructed, max);
      case Disconnect => DisconnectKeepsFresh(s, c);
      case Subscribe(t, constructed) => SubscribeKeepsFresh(s, t, constructed, c, max);
      case Unsubscribe(t) => UnsubscribeKeepsFresh(s, t, c);
      case Fire(_, _) => FireKeepsFresh(s, e, c, max);
      case _ => SocketKeepsFresh(s, e, c, max);
    }
    hide Inv, Fresh, AfterConnect, AfterDisconnect, AfterSubscribe, AfterUnsubscribe, OnOpen, OnDown, SetReady,
      OnReconnectTimer, OnConnectTimeout, CategoryOk, SocketsOk, TimerIds, StoppedOk, Consistent;
  }

  /** While the registered socket of a category is open, no attempt is counted and no reconnect is pending. */
  lemma {:induction false} OpenIsFresh(events: seq<Event>, max: nat, c: Category)
    requires Play(events, max).Some?
    ensures var f := FeedOf(Play(events, max).value, c);
      IsOpen(Play(events, max).value, f.socket) ==> f.attempts == 0 && f.timer.None?
  {
    if events != [] {
      var front := events[..|events| - 1];
      OpenIsFresh(front, max, c);
      PlayKeepsInv(front, max);
      NextKeepsFresh(Play(front, max).value, events[|events| - 1], c, max);
    }
    hide Next, Enabled, Inv;
  }

  // ----- What a drop leads to -----

  /** A reconnect of the category is pending. */
  predicate ReconnectPending(s: State, c: Category) {
    var timer := FeedOf(s, c).timer;
    timer.Some? && timer.value in s.timers && s.timers[timer.value] == Reconnect(c)
  }

  lemma DownSchedules(s: State, id: SocketId, ready: ReadyState, max: nat)
    requires Inv(s, max) && Registered(s, id) && ready != Open
    ensures var c := s.sockets[id].category; var after := OnDown(SetReady(s, id, ready), id, max);
      && !FeedOf(after, c).connecting
      && (ReconnectPending(after, c) <==> ReconnectPending(s, c) || Attempts(s, c) < max)
  {
    var c := s.sockets[id].category;
    InvIsInvBut(s, c, max);
    hide SocketsOk, TimerIds, Alive;
  }

  /** Whenever an open registered socket fails or ends, and reconnects are allowed at all, a reconnect is scheduled. */
  lemma DropsReconnect(events: seq<Event>, max: nat, id: SocketId, e: Event)
    requires Play(events, max).Some? && max > 0 && (e == Failed(id) || e == Ended(id))
    requires var s := Play(events, max).value; Registered(s, id) && s.sockets[id].ready == Open
    ensures var s := Play(events, max).value;
      Enabled(s, e) && ReconnectPending(Next(s, e, max), s.sockets[id].category)
  {
    var s := Play(events, max).value;
    OpenIsFresh(events, max, s.sockets[id].category);
    PlayKeepsInv(events, max);
    hide Play, Inv, OnDown, ReconnectPending;
    DownSchedules(s, id, if e.Failed? then Closing else Closed, max);
  }

  /** The feed after connecting: a handshake on a new socket, or, without one, a reconnect while attempts are left. */
  predicate Starts(s: State, after: State, c: Category, constructed: bool, max: nat) {
    var f := FeedOf(after, c);
    && !after.isStopped
    && (constructed ==>
          && f.socket == Some(|s.sockets|) && f.connecting && after.sockets == s.sockets + [Socket(c, Connecting, {})]
          && f.timeoutTimer.Some? && f.timeoutTimer.value in after.timers
          && after.timers[f.timeoutTimer.value] == ConnectTimeout(c, |s.sockets|))
    && (!constructed ==>
          && !f.connecting && after.sockets == s.sockets && (ReconnectPending(after, c) <==> f.attempts < max))
  }

  /** connect does nothing while a handshake or an open socket is there, and starts the feed otherwise. */
  lemma ConnectStarts(s: State, c: Category, constructed: bool, max: nat)
    ensures var f, after := FeedOf(s, c), Next(s, Connect(c, constructed), max);
      if f.connecting || IsOpen(s, f.socket) then after == s
      else
        && Starts(s, after, c, constructed, max) && FeedOf(after, c).attempts == f.attempts
        && FeedOf(after, Other(c)) == FeedOf(s, Other(c))
  {
    hide AfterConnect, Handles, IsOpen;
    var f := FeedOf(s, c);
    ConnectIdles(s, c, constructed, max);
    if !f.connecting && !IsOpen(s, f.socket) {
      ConnectEffect(s, c, constructed, max);
    }
  }

  /** The feed after a reconnect timer fired has started anew, with one more attempt counted. */
  predicate Reconnecting(s: State, after: State, c: Category, constructed: bool, max: nat) {
    FeedOf(after, c).attempts == FeedOf(s, c).attempts + 1 && Starts(s, after, c, constructed, max)
  }

  lemma RetryStep(s: State, id: TimerId, c: Category, constructed: bool, max: nat)
    requires id in s.timers && s.timers[id] == Reconnect(c) && !s.isStopped
    requires var f := FeedOf(s, c);
      f.timer == Some(id) && !f.connecting && f.timeoutTimer.None? && !IsOpen(s, f.socket)
    ensures Reconnecting(s, Next(s, Fire(id, constructed), max), c, constructed, max)
  {
    var fired := s.(timers := s.timers - {id});
    var f := FeedOf(fired, c);
    var counted := WithFeed(fired, c, f.(timer := None, attempts := f.attempts + 1));
    ConnectEffect(counted, c, constructed, max);
    assert Next(s, Fire(id, constructed), max) == AfterConnect(counted, c, constructed, max);
    hide AfterConnect, Next;
  }

  /** A reconnect timer that fires starts a handshake on a new socket, or schedules the next one if it cannot. */
  lemma RetryConnects(events: seq<Event>, max: nat, id: TimerId, c: Category, constructed: bool)
    requires Play(events, max).Some?
    requires var s := Play(events, max).value; id in s.timers && s.timers[id] == Reconnect(c)
    ensures var s := Play(events, max).value; Reconnecting(s, Next(s, Fire(id, constructed), max), c, constructed, max)
  {
    var s := Play(events, max).value;
    PlayKeepsInv(events, max);
    OpenIsFresh(events, max, c);
    hide Play, Inv, Reconnecting, IsOpen, Next;
    PendingFeed(s, id, c, max);
    RetryStep(s, id, c, constructed, max);
  }

  lemma PendingFeed(s: State, id: TimerId, c: Category, max: nat)
    requires Inv(s, max) && id in s.timers && s.timers[id] == Reconnect(c)
    ensures var f := FeedOf(s, c);
      f.timer == Some(id) && !f.connecting && !s.isStopped && f.timeoutTimer.None?
  {
    InvIsInvBut(s, c, max);
    if s.isStopped {
      NoTimerWhileStopped(s, max);
    }
    hide Inv, CategoryOk, SocketsOk, TimerIds, Alive;
  }

  /** A handshake that takes too long is aborted and tried again, as long as attempts are left. */
  lemma TimeoutRetries(s: State, id: TimerId, constructed: bool, max: nat)
    requires Inv(s, max) && id in s.timers && s.timers[id].ConnectTimeout?
    ensures var t := s.timers[id]; var after := Next(s, Fire(id, constructed), max); var f := FeedOf(after, t.category);
      && t.socket < |after.sockets| && after.sockets[t.socket].ready == Closing && !f.connecting
      && (ReconnectPending(after, t.category) <==> f.attempts < max)
  {
    InvIsInvBut(s, s.timers[id].category, max);
    assert !s.isStopped by {
      if s.isStopped {
        NoTimerWhileStopped(s, max);
      }
    }
    hide Inv, SocketsOk, TimerIds, StoppedOk, Alive;
  }

  // ----- Subscriptions -----

  /** The topics subscribed to and not unsubscribed since. */
  function Wanted(events: seq<Event>): set<Topic> {
    if events == [] then {}
    else
      var front, e := events[..|events| - 1], events[|events| - 1];
      if e.Subscribe? then Wanted(front) + {e.topic}
      else if e.Unsubscribe? then Wanted(front) - {e.topic}
      else Wanted(front)
  }

  lemma ConnectKeepsTopics(s: State, c: Category, constructed: bool, max: nat)
    ensures AfterConnect(s, c, constructed, max).subscriptions == s.subscriptions
  {
  }

  lemma StopKeepsTopics(s: State, c: Category)
    ensures StopFeed(s, c).subscriptions == s.subscriptions
  {
  }

  lemma CloseSpotKeepsTopics(s: State)
    ensures CloseSpot(s).subscriptions == s.subscriptions
  {
  }

  lemma NextTopics(s: State, e: Event, max: nat)
    requires Enabled(s, e)
    ensures Next(s, e, max).subscriptions
      == if e.Subscribe? then s.subscriptions + {e.topic}
         else if e.Unsubscribe? then s.subscriptions - {e.topic} else s.subscriptions
  {
    match e {
      case Connect(c, constructed) => ConnectKeepsTopics(s, c, constructed, max);
      case Disconnect =>
        StopKeepsTopics(s.(isStopped := true), Linear);
        StopKeepsTopics(StopFeed(s.(isStopped := true), Linear), Spot);
      case Subscribe(t, constructed) =>
        var added := s.(subscriptions := s.subscriptions + {t});
        ConnectKeepsTopics(added, Spot, constructed, max);
        var connected := if t.category == Spot then AfterConnect(added, Spot, constructed, max) else added;
        SendKeepsFeeds(connected, FeedOf(connected, t.category).socket, t, true, Spot);
      case Unsubscribe(t) =>
        var removed := s.(subscriptions := s.subscriptions - {t});
        SendKeepsFeeds(removed, FeedOf(removed, t.category).socket, t, false, Spot);
        CloseSpotKeepsTopics(Send(removed, FeedOf(removed, t.category).socket, t, false));
      case Fire(id, constructed) => FireKeepsTopics(s, id, constructed, max);
      case _ =>
    }
    hide AfterConnect, StopFeed, CloseSpot, Send, OnReconnectTimer, OnConnectTimeout, Topics;
  }

  lemma FireKeepsTopics(s: State, id: TimerId, constructed: bool, max: nat)
    requires id in s.timers
    ensures Next(s, Fire(id, constructed), max).subscriptions == s.subscriptions
  {
    hide AfterConnect, OnConnectTimeout;
    var fired := s.(timers := s.timers - {id});
    match s.timers[id]
    case Reconnect(c) =>
      var f := FeedOf(fired, c);
      ConnectKeepsTopics(WithFeed(fired, c, f.(timer := None, attempts := f.attempts + 1)), c, constructed, max);
    case ConnectTimeout(c, socket) => TimeoutKeepsTopics(fired, c, socket, max);
  }

  lemma TimeoutKeepsTopics(s: State, c: Category, socket: SocketId, max: nat)
    ensures OnConnectTimeout(s, c, socket, max).subscriptions == s.subscriptions
  {
  }

  /** Over every event sequence an open socket streams exactly the topics of its category that are wanted. */
  lemma OpenSocketsStreamWanted(events: seq<Event>, max: nat, id: SocketId)
    requires Play(events, max).Some?
    requires id < |Play(events, max).value.sockets| && Play(events, max).value.sockets[id].ready == Open
    ensures var socket := Play(events, max).value.sockets[id];
      forall t :: t in socket.streaming <==> t in Wanted(events) && t.category == socket.category
  {
    TopicsAreWanted(events, max);
    PlayKeepsInv(events, max);
    assert SocketOk(Play(events, max).value, id);
    hide Play, Wanted;
  }

  /** Connecting, failing and disconnecting never change what is subscribed. */
  lemma {:induction false} TopicsAreWanted(events: seq<Event>, max: nat)
    requires Play(events, max).Some?
    ensures Play(events, max).value.subscriptions == Wanted(events)
  {
    if events != [] {
      var front := events[..|events| - 1];
      TopicsAreWanted(front, max);
      NextTopics(Play(front, max).value, events[|events| - 1], max);
    }
    hide Next, Enabled;
  }

  /** The feeds, the timers and the sockets are the same, but for what the sockets stream. */
  predicate SameFeeds(s: State, later: State) {
    && later.spot == s.spot && later.linear == s.linear && later.timers == s.timers
    && later.isStopped == s.isStopped && |later.sockets| == |s.sockets|
    && forall id :: 0 <= id < |s.sockets| ==>
         later.sockets[id] == s.sockets[id].(streaming := later.sockets[id].streaming)
  }

  /** Subscribing to a spot topic connects the spot feed as connect does; for a linear topic no feed changes. */
  lemma SubscribeConnects(s: State, t: Topic, constructed: bool, max: nat)
    ensures var after, connected := Next(s, Subscribe(t, constructed), max), Next(s, Connect(Spot, constructed), max);
      && (t.category == Spot ==> SameFeeds(after, connected))
      && (t.category == Linear ==> SameFeeds(after, s))
  {
    ConnectIgnoresSubscriptions(s, s.subscriptions + {t}, Spot, constructed, max);
    hide AfterConnect;
  }

  /** Giving up the last spot topic closes the spot socket and leaves the feed as it was at first. */
  lemma LastSpotTopic(s: State, t: Topic, max: nat)
    requires Inv(s, max) && ClosesSpot(s, Unsubscribe(t), Spot)
    ensures var after := Next(s, Unsubscribe(t), max);
      && after.spot == Feed(None, false, 0, None, None) && after.linear == s.linear
      && (s.spot.socket.Some? && s.sockets[s.spot.socket.value].ready != Closed ==>
            s.spot.socket.value < |after.sockets| && after.sockets[s.spot.socket.value].ready == Closing)
  {
    InvIsInvBut(s, Spot, max);
    var removed := s.(subscriptions := s.subscriptions - {t});
    var sent := Send(removed, removed.spot.socket, t, false);
    assert Topics(sent.subscriptions, Spot) == {};
    hide Inv, SocketsOk, Topics, TimersOk, Alive;
  }

  /** disconnect stops the service: no timer is left, no socket is connecting or open, and the topics stay wanted. */
  lemma DisconnectStops(s: State, max: nat)
    requires Inv(s, max)
    ensures var after := Next(s, Disconnect, max);
      && after.isStopped && after.timers == map[] && after.subscriptions == s.subscriptions
      && after.linear.socket == None && after.spot.socket == None
      && forall id :: 0 <= id < |after.sockets| ==>
           after.sockets[id].ready == Closing || after.sockets[id].ready == Closed
  {
    var after := Next(s, Disconnect, max);
    NextTopics(s, Disconnect, max);
    DisconnectKeepsInv(s, max);
    DisconnectEffect(s);
    hide Next, AfterDisconnect;
    NoTimerWhileStopped(after, max);
    forall id | 0 <= id < |after.sockets|
      ensures after.sockets[id].ready == Closing || after.sockets[id].ready == Closed
    {
      assert SocketOk(after, id);
    }
  }
}
