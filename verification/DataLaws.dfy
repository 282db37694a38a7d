/** What the stored bars, the cached answers and the coarser bars are, bar by bar. */
module DataLaws {
  import opened Arithmetic
  import opened Bars
  import opened BarAggregation
  import opened DataEngine
  import opened Prelude

  function Prices(b: Bar): set<real> {
    {b.open, b.high, b.low, b.close}
  }

  /** A bar is valid exactly when every price of it lies between its low and its high and its volume is not negative. */
  lemma ValidMeaning(b: Bar)
    ensures ValidBar(b) <==> b.volume >= 0.0 && forall p :: p in Prices(b) ==> b.low <= p <= b.high
  {
    assert b.open in Prices(b) && b.high in Prices(b) && b.close in Prices(b);
  }

  // ----- Picking bars -----

  predicate Increasing(at: seq<nat>) {
    forall i, j :: 0 <= i < j < |at| ==> at[i] < at[j]
  }

  predicate Within(at: seq<nat>, n: nat) {
    forall i :: 0 <= i < |at| ==> at[i] < n
  }

  /** The elements at some places, in that order. */
  function Picked<T>(list: seq<T>, at: seq<nat>): (r: seq<T>)
    requires Within(at, |list|)
    ensures |r| == |at| && forall i :: 0 <= i < |at| ==> r[i] == list[at[i]]
  {
    seq(|at|, i requires 0 <= i < |at| => list[at[i]])
  }

  /** result holds exactly the elements at the chosen places, each once, in their order. */
  ghost predicate Selects<T>(result: seq<T>, list: seq<T>, chosen: iset<nat>) {
    exists at: seq<nat> :: SelectsAt(result, list, chosen, at)
  }

  ghost predicate SelectsAt<T>(result: seq<T>, list: seq<T>, chosen: iset<nat>, at: seq<nat>) {
    && Within(at, |list|) && Increasing(at)
    && (forall i: nat :: i in at <==> i < |list| && i in chosen)
    && result == Picked(list, at)
  }

  lemma NothingSelected<T>(chosen: iset<nat>)
    ensures Selects<T>([], [], chosen)
  {
    assert SelectsAt<T>([], [], chosen, []);
  }

  /** One more element, chosen or not. */
  lemma SelectsMore<T>(result: seq<T>, front: seq<T>, before: iset<nat>, b: T, chosen: iset<nat>)
    requires Selects(result, front, before)
    requires forall i: nat :: i < |front| ==> (i in before <==> i in chosen)
    ensures Selects(if |front| in chosen then result + [b] else result, front + [b], chosen)
  {
    var at: seq<nat> :| SelectsAt(result, front, before, at);
    SelectsMoreAt(result, front, before, b, chosen, at);
  }

  lemma SelectsMoreAt<T>(result: seq<T>, front: seq<T>, before: iset<nat>, b: T, chosen: iset<nat>, at: seq<nat>)
    requires SelectsAt(result, front, before, at)
    requires forall i: nat :: i < |front| ==> (i in before <==> i in chosen)
    ensures SelectsAt(if |front| in chosen then result + [b] else result, front + [b], chosen,
      if |front| in chosen then at + [|front|] else at)
  {
    var m, more := |front|, if |front| in chosen then at + [|front|] else at;
    forall i: nat ensures i in more <==> i < m + 1 && i in chosen {
      assert i in at <==> i < m && i in before;
      assert i in at + [m] <==> i in at || i == m;
    }
    PickedMore(front, b, at);
  }

  lemma PickedMore<T>(front: seq<T>, b: T, at: seq<nat>)
    requires Within(at, |front|)
    ensures Within(at + [|front|], |front| + 1) && Within(at, |front| + 1)
    ensures Picked(front + [b], at) == Picked(front, at)
    ensures Picked(front + [b], at + [|front|]) == Picked(front, at) + [b]
  {
  }

  // ----- Direct answers -----

  /** The bars not before the start and not after the end, where these are given. */
  ghost function Between(bars: seq<Bar>, start: Option<int>, end: Option<int>): iset<nat> {
    iset i: nat | i < |bars|
      && (start == None || start.value <= bars[i].timestamp) && (end == None || bars[i].timestamp <= end.value)
  }

  lemma {:induction false} FilterMeaning(bars: seq<Bar>, start: Option<int>, end: Option<int>)
    ensures Selects(Filter(bars, start, end), bars, Between(bars, start, end))
  {
    hide Selects, Between, InRange;
    if bars == [] {
      NothingSelected<Bar>(Between([], start, end));
    } else {
      var m := |bars| - 1;
      var front := bars[..m];
      FilterMeaning(front, start, end);
      assert bars == front + [bars[m]];
      BetweenMore(front, bars[m], start, end);
      SelectsMore(Filter(front, start, end), front, Between(front, start, end), bars[m], Between(bars, start, end));
    }
  }

  lemma BetweenMore(front: seq<Bar>, b: Bar, start: Option<int>, end: Option<int>)
    ensures forall i: nat :: i < |front| ==>
      (i in Between(front, start, end) <==> i in Between(front + [b], start, end))
    ensures |front| in Between(front + [b], start, end) <==> InRange(b, start, end)
  {
    assert (front + [b])[|front|] == b;
  }

  /** A direct answer holds exactly the stored bars of the series from start to end, both included, in their order. */
  lemma AnswerMeaning(data: Store, q: Query)
    ensures !(q.symbol in data && q.timeframe in data[q.symbol]) ==> Answer(data, q) == []
    ensures q.symbol in data && q.timeframe in data[q.symbol] ==>
      var bars := data[q.symbol][q.timeframe];
      Selects(Answer(data, q), bars, Between(bars, q.start, q.end))
  {
    hide Selects, Between;
    FilterMeaning(StoredBars(data, q.symbol, q.timeframe), q.start, q.end);
  }

  // ----- Added bars -----

  /** The bar at i is late enough to be added. */
  predicate Late(existing: seq<Bar>, bars: seq<Bar>, i: nat) {
    i < |bars| && (existing != [] ==> bars[i].timestamp > existing[|existing| - 1].timestamp)
  }

  /** The next late bar after the one at i is at j. */
  predicate NextLate(existing: seq<Bar>, bars: seq<Bar>, i: nat, j: nat) {
    i < j && Late(existing, bars, j) && forall k: nat :: i < k < j ==> !Late(existing, bars, k)
  }

  /** The bar at i is late, and the next late bar, if there is one, has another timestamp. */
  ghost predicate Survives(existing: seq<Bar>, bars: seq<Bar>, i: nat) {
    Late(existing, bars, i)
    && forall j: nat :: NextLate(existing, bars, i, j) ==> bars[j].timestamp != bars[i].timestamp
  }

  ghost function Surviving(existing: seq<Bar>, bars: seq<Bar>): iset<nat> {
    iset i: nat | i < |bars| && Survives(existing, bars, i)
  }

  /** at lists the surviving bars, and no late bar comes after the last of them. */
  ghost predicate AddedAt(existing: seq<Bar>, bars: seq<Bar>, at: seq<nat>) {
    && Within(at, |bars|) && SelectsAt(Picked(bars, at), bars, Surviving(existing, bars), at)
    && (forall k: nat :: Late(existing, bars, k) ==> at != [] && k <= at[|at| - 1])
    && Merged(existing, Deduplicate(existing, bars)) == existing + Picked(bars, at)
  }

  lemma DeduplicateMore(existing: seq<Bar>, front: seq<Bar>, b: Bar)
    ensures Deduplicate(existing, front + [b])
      == Deduplicate(existing, front) + if Late(existing, front + [b], |front|) then [b] else []
  {
    assert (front + [b])[..|front|] == front;
  }

  lemma MergedMore(existing: seq<Bar>, front: seq<Bar>, b: Bar)
    ensures Merged(existing, front + [b]) == Append(Merged(existing, front), b)
  {
    assert (front + [b])[..|front|] == front;
  }

  lemma LateInFront(existing: seq<Bar>, front: seq<Bar>, b: Bar)
    ensures forall i: nat :: i < |front| ==> Late(existing, front + [b], i) == Late(existing, front, i)
    ensures forall i: nat :: !Late(existing, front, i) || i < |front|
  {
  }

  /** A bar that survives in front survives one more bar, unless that one is the next late bar and has its timestamp. */
  lemma SurvivesMore(existing: seq<Bar>, front: seq<Bar>, b: Bar, i: nat)
    requires i < |front|
    ensures Survives(existing, front + [b], i) <==>
      && Survives(existing, front, i)
      && !(NextLate(existing, front + [b], i, |front|) && b.timestamp == front[i].timestamp)
  {
    var bars := front + [b];
    LateInFront(existing, front, b);
    assert bars[|front|] == b && bars[i] == front[i];
    hide Late;
    forall j: nat | j < |front|
      ensures bars[j] == front[j] && NextLate(existing, bars, i, j) == NextLate(existing, front, i, j)
    {
    }
    if Survives(existing, bars, i) {
      forall j: nat | NextLate(existing, front, i, j)
        ensures front[j].timestamp != front[i].timestamp
      {
        assert j < |front| && NextLate(existing, bars, i, j);
      }
    }
    if Survives(existing, front, i) && !(NextLate(existing, bars, i, |front|) && b.timestamp == front[i].timestamp) {
      forall j: nat | NextLate(existing, bars, i, j)
        ensures bars[j].timestamp != bars[i].timestamp
      {
        if j < |front| {
          assert NextLate(existing, front, i, j);
        } else {
          InsideBars(existing, bars, j);
        }
      }
    }
  }

  lemma InsideBars(existing: seq<Bar>, bars: seq<Bar>, j: nat)
    requires Late(existing, bars, j)
    ensures j < |bars|
  {
  }

  lemma LastSurvives(existing: seq<Bar>, front: seq<Bar>, b: Bar)
    ensures Survives(existing, front + [b], |front|) == Late(existing, front + [b], |front|)
  {
  }

  /** A bar that is not late adds nothing. */
  lemma AddedEarly(existing: seq<Bar>, front: seq<Bar>, b: Bar, at: seq<nat>)
    requires AddedAt(existing, front, at) && !Late(existing, front + [b], |front|)
    ensures AddedAt(existing, front + [b], at)
  {
    hide Survives, Late, Merged, Picked;
    var bars := front + [b];
    LateInFront(existing, front, b);
    DeduplicateMore(existing, front, b);
    LastSurvives(existing, front, b);
    PickedMore(front, b, at);
    forall i: nat ensures i in at <==> i < |bars| && i in Surviving(existing, bars) {
      assert i in at <==> i < |front| && i in Surviving(existing, front);
      if i < |front| {
        SurvivesMore(existing, front, b, i);
      }
    }
    forall k: nat | Late(existing, bars, k) ensures at != [] && k <= at[|at| - 1] {
      InsideBars(existing, bars, k);
    }
  }

  /** The last survivor, if there is one, is the only bar whose next late bar is the new one. */
  lemma NextOfLast(existing: seq<Bar>, front: seq<Bar>, b: Bar, at: seq<nat>, i: nat)
    requires AddedAt(existing, front, at) && Late(existing, front + [b], |front|) && i in at
    ensures NextLate(existing, front + [b], i, |front|) <==> i == at[|at| - 1]
  {
    hide Merged, Picked;
    var bars, last := front + [b], at[|at| - 1];
    LateInFront(existing, front, b);
    assert last in at && last in Surviving(existing, front) && i in Surviving(existing, front);
    assert Late(existing, bars, last);
    hide Late;
    assert forall k: nat :: Late(existing, front, k) ==> k <= last;
    assert forall k: nat :: last < k < |front| ==> Late(existing, bars, k) == Late(existing, front, k);
  }

  /** A late bar joins the survivors, in place of the last one if that has its timestamp. */
  lemma AddedLate(existing: seq<Bar>, front: seq<Bar>, b: Bar, at: seq<nat>)
    requires AddedAt(existing, front, at) && Late(existing, front + [b], |front|)
    ensures var m := |front|;
      var over := at != [] && front[at[|at| - 1]].timestamp == b.timestamp;
      AddedAt(existing, front + [b], (if over then at[..|at| - 1] else at) + [m])
  {
    hide Surviving, Merged, Deduplicate, Picked, Late, Increasing;
    var bars, m := front + [b], |front|;
    var over := at != [] && front[at[|at| - 1]].timestamp == b.timestamp;
    var kept := if over then at[..|at| - 1] else at;
    SurvivorsWithLate(existing, front, b, at, kept);
    AppendedLate(existing, front, b, at, kept);
    PickedMore(front, b, kept);
    forall k: nat | Late(existing, bars, k) ensures k <= m {
      InsideBars(existing, bars, k);
    }
    assert existing + (Picked(front, kept) + [b]) == existing + Picked(front, kept) + [b];
  }

  lemma SurvivorsWithLate(existing: seq<Bar>, front: seq<Bar>, b: Bar, at: seq<nat>, kept: seq<nat>)
    requires AddedAt(existing, front, at) && Late(existing, front + [b], |front|)
    requires kept == if at != [] && front[at[|at| - 1]].timestamp == b.timestamp then at[..|at| - 1] else at
    ensures Within(kept, |front|) && Increasing(kept + [|front|])
    ensures forall i: nat :: i in kept + [|front|] <==> i < |front| + 1 && i in Surviving(existing, front + [b])
  {
    hide Survives, Merged, Picked, NextLate, Late;
    var bars, m := front + [b], |front|;
    LastSurvives(existing, front, b);
    forall i: nat ensures i in kept + [m] <==> i < m + 1 && i in Surviving(existing, bars) {
      assert i in kept + [m] <==> i in kept || i == m;
      assert i in at <==> i < m && i in Surviving(existing, front);
      InKept(at, kept, i);
      if i < m {
        SurvivesMore(existing, front, b, i);
        if i in at {
          NextOfLast(existing, front, b, at, i);
        }
      }
    }
  }

  lemma InKept(at: seq<nat>, kept: seq<nat>, i: nat)
    requires Increasing(at) && (kept == at || (at != [] && kept == at[..|at| - 1]))
    ensures i in kept <==> i in at && !(kept != at && i == at[|at| - 1])
  {
  }

  lemma AppendedLate(existing: seq<Bar>, front: seq<Bar>, b: Bar, at: seq<nat>, kept: seq<nat>)
    requires AddedAt(existing, front, at) && Late(existing, front + [b], |front|)
    requires kept == if at != [] && front[at[|at| - 1]].timestamp == b.timestamp then at[..|at| - 1] else at
    ensures Within(kept, |front|)
    ensures Merged(existing, Deduplicate(existing, front + [b])) == existing + Picked(front, kept) + [b]
  {
    hide Surviving, Late, Deduplicate, Merged, SelectsAt, Picked, Append;
    DeduplicateMore(existing, front, b);
    MergedMore(existing, Deduplicate(existing, front), b);
    if at == [] {
      AppendFirst(existing, front, b);
      assert Picked(front, at) == Picked(front, kept) == [];
      assert existing + [] + [b] == existing + [b];
    } else {
      PickedLast(front, at);
      AppendNext(existing, Picked(front, at[..|at| - 1]), front[at[|at| - 1]], b);
    }
  }

  lemma AppendFirst(existing: seq<Bar>, front: seq<Bar>, b: Bar)
    requires Late(existing, front + [b], |front|)
    ensures Append(existing + [], b) == existing + [b]
  {
    assert existing + [] == existing;
  }

  lemma AppendNext(existing: seq<Bar>, added: seq<Bar>, last: Bar, b: Bar)
    ensures Append(existing + (added + [last]), b)
      == existing + (if last.timestamp == b.timestamp then added else added + [last]) + [b]
  {
    var r := existing + (added + [last]);
    assert r[|r| - 1] == last && r[..|r| - 1] == existing + added;
  }

  lemma PickedLast<T>(list: seq<T>, at: seq<nat>)
    requires Within(at, |list|) && at != []
    ensures Within(at[..|at| - 1], |list|) && at[|at| - 1] < |list|
    ensures Picked(list, at) == Picked(list, at[..|at| - 1]) + [list[at[|at| - 1]]]
  {
  }

  /**
   * What addBars merges, for any batch: after the bars stored before, it holds exactly the late bars of the batch whose
   * next late bar has another timestamp, in their order.
   */
  lemma {:induction false} MergeMeaning(existing: seq<Bar>, bars: seq<Bar>) returns (at: seq<nat>)
    ensures AddedAt(existing, bars, at)
  {
    hide Surviving, Late, Picked, Merged, Deduplicate;
    if bars == [] {
      at := [];
      NothingAdded(existing);
    } else {
      var m := |bars| - 1;
      at := MergeMeaning(existing, bars[..m]);
      assert bars == bars[..m] + [bars[m]];
      if Late(existing, bars, m) {
        AddedLate(existing, bars[..m], bars[m], at);
        at := (if at != [] && bars[at[|at| - 1]].timestamp == bars[m].timestamp then at[..|at| - 1] else at) + [m];
      } else {
        AddedEarly(existing, bars[..m], bars[m], at);
      }
    }
  }

  lemma NothingAdded(existing: seq<Bar>)
    ensures AddedAt(existing, [], [])
  {
  }

  /** The newest bars of a series, as many as there is room for. */
  ghost predicate NewestOf(kept: seq<Bar>, all: seq<Bar>, room: nat) {
    exists older: seq<Bar> :: all == older + kept && |kept| <= room && (|kept| < room ==> older == [])
  }

  lemma TrimmedMeaning(all: seq<Bar>, room: nat)
    ensures NewestOf(Trimmed(all, room), all, room)
  {
    var older := all[..|all| - |Trimmed(all, room)|];
    assert all == older + Trimmed(all, room);
  }

  /** The stored bars of a series, none if it was never added to. */
  function SeriesBars(data: Store, symbol: string, timeframe: string): seq<Bar> {
    if symbol in data && timeframe in data[symbol] then data[symbol][timeframe] else []
  }

  /** Only the series itself changes. */
  ghost predicate OthersAreKept(before: Store, after: Store, symbol: string, timeframe: string) {
    forall a: string, t: string :: (a, t) != (symbol, timeframe) ==>
      && (a in after && t in after[a] <==> a in before && t in before[a])
      && SeriesBars(after, a, t) == SeriesBars(before, a, t)
  }

  /** The places of the cached answers whose key does not start like this. */
  ghost function NotUnder(cache: seq<Slot>, prefix: string): iset<nat> {
    iset i: nat | i < |cache| && !(prefix <= cache[i].key)
  }

  lemma {:induction false} InvalidatedSelects(cache: seq<Slot>, prefix: string)
    ensures Selects(Invalidated(cache, prefix), cache, NotUnder(cache, prefix))
  {
    hide Selects;
    if cache == [] {
      NothingSelected<Slot>(NotUnder([], prefix));
    } else {
      var m := |cache| - 1;
      InvalidatedSelects(cache[..m], prefix);
      assert cache == cache[..m] + [cache[m]];
      SelectsMore(Invalidated(cache[..m], prefix), cache[..m], NotUnder(cache[..m], prefix), cache[m],
        NotUnder(cache, prefix));
    }
  }

  /**
   * addBars: refused exactly when bars are validated and one is not valid, and then nothing stored or cached changes.
   * Otherwise the series becomes the newest of its old bars and the surviving ones of the batch, exactly its cached
   * answers are dropped, and every other series is kept.
   */
  lemma AddMeaning(s: State, config: Config, symbol: string, timeframe: string, bars: seq<Bar>)
    ensures var (after, ok) := AfterAdd(s, config, symbol, timeframe, bars);
      var existing := SeriesBars(s.data, symbol, timeframe);
      && (ok <==> config.enableValidation ==> forall b :: b in bars ==> ValidBar(b))
      && symbol in after.data && timeframe in after.data[symbol]
      && OthersAreKept(s.data, after.data, symbol, timeframe)
      && (!ok ==> SeriesBars(after.data, symbol, timeframe) == existing && after.cache == s.cache)
      && (ok ==> Selects(after.cache, s.cache, NotUnder(s.cache, symbol + ":" + timeframe + ":")))
      && (ok ==> exists added: seq<Bar> ::
            && Selects(added, bars, Surviving(existing, bars))
            && NewestOf(SeriesBars(after.data, symbol, timeframe), existing + added, config.maxBarsPerSymbol))
  {
    hide Selects, NewestOf, Surviving, ValidBar, Invalidated, Merged, Deduplicate, Trimmed, NotUnder;
    var existing := SeriesBars(s.data, symbol, timeframe);
    InvalidatedSelects(s.cache, symbol + ":" + timeframe + ":");
    var added := MergeSelects(existing, bars);
    TrimmedMeaning(existing + added, config.maxBarsPerSymbol);
  }

  lemma MergeSelects(existing: seq<Bar>, bars: seq<Bar>) returns (added: seq<Bar>)
    ensures Selects(added, bars, Surviving(existing, bars))
    ensures Merged(existing, Deduplicate(existing, bars)) == existing + added
  {
    hide Surviving, Merged, Deduplicate, Picked, SelectsAt;
    var at := MergeMeaning(existing, bars);
    added := Picked(bars, at);
  }

  // ----- The cache -----

  /** The slot to give up: used no later than any other, and earlier than every one inserted before it. */
  predicate LeastRecent(cache: seq<Slot>, i: nat) {
    && i < |cache|
    && (forall j :: 0 <= j < |cache| ==> cache[i].lastAccess <= cache[j].lastAccess)
    && (forall j :: 0 <= j < i ==> cache[i].lastAccess < cache[j].lastAccess)
  }

  lemma {:induction false} OldestIsLeastRecent(cache: seq<Slot>)
    requires cache != []
    ensures LeastRecent(cache, Oldest(cache))
  {
    if |cache| > 1 {
      var m := |cache| - 1;
      OldestIsLeastRecent(cache[..m]);
      assert forall j :: 0 <= j < m ==> cache[..m][j] == cache[j];
    }
  }

  /** A query whose key is cached returns the cached bars and marks that slot alone as used now. */
  lemma HitMeaning(s: State, config: Config, q: Query, now: int, i: nat)
    requires i < |s.cache| && UniqueKeys(s.cache) && s.cache[i].key == CacheKey(q)
    ensures var slot := s.cache[i];
      AfterGet(s, config, q, now) == (State(s.data, s.cache[i := Slot(slot.key, slot.bars, now)]), slot.bars)
  {
    hide CacheKey;
    assert s.cache[i] in s.cache;
  }

  /**
   * A query whose key is not cached leaves the store alone. If the series is stored the answer is cached as used now,
   * in place of the least recently used slot when the cache is full.
   */
  lemma MissMeaning(s: State, config: Config, q: Query, now: int)
    requires forall slot :: slot in s.cache ==> slot.key != CacheKey(q)
    ensures var (after, bars) := AfterGet(s, config, q, now);
      && after.data == s.data && bars == Answer(s.data, q)
      && (!(q.symbol in s.data && q.timeframe in s.data[q.symbol]) ==> after.cache == s.cache)
      && (q.symbol in s.data && q.timeframe in s.data[q.symbol] ==>
            if |s.cache| < config.cacheSize || s.cache == []
            then after.cache == s.cache + [Slot(CacheKey(q), bars, now)]
            else exists i: nat ::
              && LeastRecent(s.cache, i)
              && after.cache == s.cache[..i] + s.cache[i + 1..] + [Slot(CacheKey(q), bars, now)])
  {
    hide CacheKey, Answer, LeastRecent;
    if !Stored(s.data, q.symbol, q.timeframe) {
      NothingStored(s.data, q);
    }
    if s.cache != [] {
      OldestIsLeastRecent(s.cache);
    }
  }

  /** No two slots ever have the same key, whatever is called. */
  lemma {:induction false} KeysStayUnique(config: Config, ops: seq<Op>)
    ensures UniqueKeys(Run(config, ops).cache)
  {
    hide CacheKey, Filter, Invalidated, AllValid, NewBars, Oldest, Prefix;
    if ops != [] {
      var m := |ops| - 1;
      KeysStayUnique(config, ops[..m]);
      var s := Run(config, ops[..m]);
      match ops[m]
      case Add(symbol, timeframe, bars) => InvalidatedUnique(s.cache, Prefix(symbol, timeframe));
      case Get(q, now) =>
      case Clear(symbol, timeframe) =>
        InvalidatedUnique(s.cache, Prefix(symbol, timeframe));
        InvalidatedUnique(s.cache, symbol + ":");
    }
  }

  /** What clear leaves: the series is not the one named, nor one of the symbol named alone, and a symbol was named. */
  predicate Spared(symbol: string, timeframe: string, a: string, t: string) {
    symbol != "" && (a == symbol ==> timeframe != "" && t != timeframe)
  }

  /** clear forgets a series, a symbol or everything, with exactly the cached answers for them. */
  lemma ClearMeaning(s: State, symbol: string, timeframe: string)
    ensures var after := AfterClear(s, symbol, timeframe);
      && (forall a: string, t: string ::
            Stored(after.data, a, t) <==> Stored(s.data, a, t) && Spared(symbol, timeframe, a, t))
      && (forall a: string, t: string :: Stored(after.data, a, t) ==> after.data[a][t] == s.data[a][t])
      && (symbol in after.data ==> after.data[symbol] != map[])
      && (if symbol == "" then after.cache == []
          else Selects(after.cache, s.cache,
            NotUnder(s.cache, if timeframe == "" then symbol + ":" else symbol + ":" + timeframe + ":")))
  {
    hide Selects, NotUnder, Invalidated;
    InvalidatedSelects(s.cache, symbol + ":" + timeframe + ":");
    InvalidatedSelects(s.cache, symbol + ":");
    var after := AfterClear(s, symbol, timeframe);
    if symbol != "" && timeframe != "" && symbol in s.data {
      var inner := s.data[symbol] - {timeframe};
      forall a: string, t: string
        ensures Stored(after.data, a, t) <==> Stored(s.data, a, t) && Spared(symbol, timeframe, a, t)
      {
        assert a == symbol && t in inner ==> inner != map[];
      }
    }
  }

  // ----- Coarser bars -----

  /** Added up from the first bar on. */
  function TotalVolume(bars: seq<Bar>): real {
    if bars == [] then 0.0 else bars[0].volume + TotalVolume(bars[1..])
  }

  lemma {:induction false} VolumeFromEitherEnd(bars: seq<Bar>)
    ensures Volume(bars) == TotalVolume(bars)
  {
    if bars != [] {
      assert bars == [bars[0]] + bars[1..];
      VolumeConcat([bars[0]], bars[1..]);
      SingleCombine(bars[0]);
      VolumeFromEitherEnd(bars[1..]);
    }
  }

  /**
   * One bar stands for a run of them: it starts and opens with the first and closes with the last, its high and low
   * bound theirs and are reached, and its volume is their total.
   */
  ghost predicate StandsFor(b: Bar, run: seq<Bar>) {
    && run != []
    && b.timestamp == run[0].timestamp && b.open == run[0].open && b.close == run[|run| - 1].close
    && (forall x :: x in run ==> x.high <= b.high && b.low <= x.low)
    && (exists x :: x in run && x.high == b.high)
    && (exists x :: x in run && x.low == b.low)
    && b.volume == TotalVolume(run)
  }

  lemma {:induction false} HighAndLow(run: seq<Bar>)
    requires run != []
    ensures forall x :: x in run ==> x.high <= MaxHigh(run) && MinLow(run) <= x.low
    ensures exists x :: x in run && x.high == MaxHigh(run)
    ensures exists x :: x in run && x.low == MinLow(run)
  {
    var m := |run| - 1;
    assert run[m] in run;
    if m > 0 {
      HighAndLow(run[..m]);
      assert run == run[..m] + [run[m]];
    }
  }

  lemma CombineStandsFor(run: seq<Bar>)
    requires run != []
    ensures StandsFor(Combine(run), run)
  {
    hide MaxHigh, MinLow, Volume, TotalVolume;
    HighAndLow(run);
    VolumeFromEitherEnd(run);
  }

  /** The bars from lo on, as many as the ratio, fewer at the end. */
  function RunAt(bars: seq<Bar>, lo: nat, ratio: nat): seq<Bar>
    requires lo < |bars|
  {
    bars[lo..if lo + ratio <= |bars| then lo + ratio else |bars|]
  }

  /** There is a k-th coarser bar exactly when there is a bar at k times the ratio, and it stands for the run there. */
  lemma AggregatedMeaning(bars: seq<Bar>, ratio: nat, k: nat)
    requires ratio > 0
    ensures k < |Aggregated(bars, ratio)| <==> k * ratio < |bars|
    ensures k < |Aggregated(bars, ratio)| ==> StandsFor(Aggregated(bars, ratio)[k], RunAt(bars, k * ratio, ratio))
  {
    hide StandsFor, Aggregated;
    AtLeastNothing(k, ratio);
    AggregatedAt(bars, ratio, k, k * ratio);
  }

  lemma {:induction false} AggregatedAt(bars: seq<Bar>, ratio: nat, k: nat, lo: nat)
    requires ratio > 0 && lo == k * ratio
    ensures k < |Aggregated(bars, ratio)| <==> lo < |bars|
    ensures k < |Aggregated(bars, ratio)| ==> StandsFor(Aggregated(bars, ratio)[k], RunAt(bars, lo, ratio))
    decreases k
  {
    hide StandsFor, Combine, Aggregated, Rest, RunAt;
    AggregatedFirst(bars, ratio);
    if bars != [] && k > 0 {
      OneMoreChunk(ratio, k);
      AggregatedAt(Rest(bars, ratio), ratio, k - 1, lo - ratio);
      RunInRest(bars, ratio, lo - ratio);
    }
  }

  lemma AggregatedFirst(bars: seq<Bar>, ratio: nat)
    requires ratio > 0
    ensures bars == [] ==> Aggregated(bars, ratio) == []
    ensures bars != [] ==>
      var all := Aggregated(bars, ratio);
      all != [] && StandsFor(all[0], RunAt(bars, 0, ratio)) && all[1..] == Aggregated(Rest(bars, ratio), ratio)
  {
    hide StandsFor, Combine;
    if bars != [] {
      CombineStandsFor(First(bars, ratio));
      assert First(bars, ratio) == RunAt(bars, 0, ratio);
    }
  }

  lemma AtLeastNothing(k: nat, ratio: nat)
    ensures k * ratio >= 0
  {
  }

  lemma RunInRest(bars: seq<Bar>, ratio: nat, lo: nat)
    ensures ratio + lo < |bars| <==> lo < |Rest(bars, ratio)|
    ensures lo < |Rest(bars, ratio)| ==> RunAt(Rest(bars, ratio), lo, ratio) == RunAt(bars, ratio + lo, ratio)
  {
  }

  /** The ratio is the nearest whole number of source bars to a target bar, a half rounding up. */
  lemma RatioMeaning(sourceMs: nat, targetMs: nat)
    requires 0 < sourceMs <= targetMs
    ensures var rest: int := targetMs - Ratio(sourceMs, targetMs) * sourceMs;
      0 <= 2 * rest + sourceMs < 2 * sourceMs
  {
    DivMod(2 * targetMs + sourceMs, 2 * sourceMs);
  }
}
