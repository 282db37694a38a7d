/** The bar store with its query cache (src/data/data-engine.ts). */
module DataEngine {
  import opened Prelude
  import opened Numerals
  import opened Bars

  datatype Config = Config(maxBarsPerSymbol: nat, cacheSize: int, enableValidation: bool)

  type Store = map<string, map<string, seq<Bar>>>

  /** Cached answers in insertion order. */
  datatype Slot = Slot(key: string, bars: seq<Bar>, lastAccess: int)

  datatype State = State(data: Store, cache: seq<Slot>)

  const Empty := State(map[], [])

  datatype Query = Query(symbol: string, timeframe: string, start: Option<int>, end: Option<int>)

  // ----- Answering from the store -----

  predicate InRange(b: Bar, start: Option<int>, end: Option<int>) {
    (start.Some? ==> b.timestamp >= start.value) && (end.Some? ==> b.timestamp <= end.value)
  }

  function Filter(bars: seq<Bar>, start: Option<int>, end: Option<int>): seq<Bar> {
    if bars == [] then []
    else
      var front := Filter(bars[..|bars| - 1], start, end);
      if InRange(bars[|bars| - 1], start, end) then front + [bars[|bars| - 1]] else front
  }

  predicate Stored(data: Store, symbol: string, timeframe: string) {
    symbol in data && timeframe in data[symbol]
  }

  function StoredBars(data: Store, symbol: string, timeframe: string): seq<Bar> {
    if Stored(data, symbol, timeframe) then data[symbol][timeframe] else []
  }

  /** The direct range filter of the stored bars. */
  function Answer(data: Store, q: Query): seq<Bar> {
    Filter(StoredBars(data, q.symbol, q.timeframe), q.start, q.end)
  }

  // ----- Cache keys -----

  function ShowOptional(n: Option<int>): string {
    if n.Some? then Show(n.value) else ""
  }

  function Prefix(symbol: string, timeframe: string): string {
    symbol + ":" + timeframe + ":"
  }

  function CacheKey(q: Query): string {
    Prefix(q.symbol, q.timeframe) + ShowOptional(q.start) + ":" + ShowOptional(q.end)
  }

  predicate NoColon(s: string) {
    ':' !in s
  }

  lemma ShowOptionalMeaning(n: Option<int>)
    ensures NoColon(ShowOptional(n)) && (ShowOptional(n) == "" <==> n.None?)
  {
  }

  /** A string splits in only one way at its last colon. */
  lemma SplitAtLastColon(a: string, b: string, c: string, d: string)
    requires NoColon(b) && NoColon(d) && a + ":" + b == c + ":" + d
    ensures a == c && b == d
  {
    var s := a + ":" + b;
    assert s[|a|] == ':' && s[|c|] == ':';
    assert forall i :: |a| < i < |s| ==> s[i] == b[i - |a| - 1] && s[i] != ':';
    assert forall i :: |c| < i < |s| ==> s[i] == d[i - |c| - 1] && s[i] != ':';
    assert s[..|a|] == a && s[..|c|] == c;
    assert s[|a| + 1..] == b && s[|c| + 1..] == d;
  }

  /** A string splits in only one way at its first colon. */
  lemma SplitAtFirstColon(a: string, b: string, c: string, d: string)
    requires NoColon(a) && NoColon(c) && a + ":" + b == c + ":" + d
    ensures a == c && b == d
  {
    var s := a + ":" + b;
    assert s[|a|] == ':' && s[|c|] == ':';
    assert forall i :: 0 <= i < |a| ==> s[i] == a[i] && s[i] != ':';
    assert forall i :: 0 <= i < |c| ==> s[i] == c[i] && s[i] != ':';
    assert s[..|a|] == a && s[..|c|] == c;
    assert s[|a| + 1..] == b && s[|c| + 1..] == d;
  }

  /** The name of a stored series. */
  datatype Series = Series(symbol: string, timeframe: string)

  function SeriesOf(q: Query): Series {
    Series(q.symbol, q.timeframe)
  }

  function Spelling(name: Series): string {
    name.symbol + ":" + name.timeframe
  }

  /** Cache keys are equal exactly when the ranges are and the names are spelled alike. */
  lemma CacheKeyMeaning(p: Query, q: Query)
    ensures CacheKey(p) == CacheKey(q) <==>
      Spelling(SeriesOf(p)) == Spelling(SeriesOf(q)) && p.start == q.start && p.end == q.end
  {
    assert CacheKey(p) == Spelling(SeriesOf(p)) + ":" + ShowOptional(p.start) + ":" + ShowOptional(p.end);
    assert CacheKey(q) == Spelling(SeriesOf(q)) + ":" + ShowOptional(q.start) + ":" + ShowOptional(q.end);
    hide CacheKey, Spelling;
    if CacheKey(p) == CacheKey(q) {
      ShowOptionalMeaning(p.start);
      ShowOptionalMeaning(p.end);
      ShowOptionalMeaning(q.start);
      ShowOptionalMeaning(q.end);
      hide ShowOptional;
      SplitAtLastColon(Spelling(SeriesOf(p)) + ":" + ShowOptional(p.start), ShowOptional(p.end),
                       Spelling(SeriesOf(q)) + ":" + ShowOptional(q.start), ShowOptional(q.end));
      SplitAtLastColon(Spelling(SeriesOf(p)), ShowOptional(p.start), Spelling(SeriesOf(q)), ShowOptional(q.start));
      SameOptional(p.start, q.start);
      SameOptional(p.end, q.end);
    }
  }

  /** No two different names in use are spelled alike. */
  ghost predicate Unambiguous(names: iset<Series>) {
    forall m, n :: m in names && n in names && Spelling(m) == Spelling(n) ==> m == n
  }

  lemma ColonFreeTimeframes(names: iset<Series>)
    requires forall n :: n in names ==> NoColon(n.timeframe)
    ensures Unambiguous(names)
  {
    forall m, n | m in names && n in names && Spelling(m) == Spelling(n)
      ensures m == n
    {
      SplitAtLastColon(m.symbol, m.timeframe, n.symbol, n.timeframe);
    }
  }

  lemma ColonFreeSymbols(names: iset<Series>)
    requires forall n :: n in names ==> NoColon(n.symbol)
    ensures Unambiguous(names)
  {
    forall m, n | m in names && n in names && Spelling(m) == Spelling(n)
      ensures m == n
    {
      SplitAtFirstColon(m.symbol, m.timeframe, n.symbol, n.timeframe);
    }
  }

  lemma SameOptional(m: Option<int>, n: Option<int>)
    requires ShowOptional(m) == ShowOptional(n)
    ensures m == n
  {
    ShowOptionalMeaning(m);
    ShowOptionalMeaning(n);
    if m.Some? && n.Some? {
      ShowInjective(m.value, n.value);
    }
  }

  // ----- Cache operations -----

  predicate StartsWith(s: string, prefix: string) {
    prefix <= s
  }

  /** Drop the slots whose key starts with the prefix. */
  function Invalidated(cache: seq<Slot>, prefix: string): seq<Slot> {
    if cache == [] then []
    else
      var front := Invalidated(cache[..|cache| - 1], prefix);
      if StartsWith(cache[|cache| - 1].key, prefix) then front else front + [cache[|cache| - 1]]
  }

  function FindSlot(cache: seq<Slot>, key: string): (i: Option<nat>)
    ensures i.Some? ==> i.value < |cache| && cache[i.value].key == key
    ensures i.None? ==> forall s :: s in cache ==> s.key != key
  {
    if cache == [] then None
    else if cache[|cache| - 1].key == key then Some(|cache| - 1)
    else FindSlot(cache[..|cache| - 1], key)
  }

  /** The least recently used slot, the earliest inserted on a tie. */
  function Oldest(cache: seq<Slot>): (i: nat)
    requires cache != []
    ensures i < |cache| && forall j :: 0 <= j < |cache| ==> cache[i].lastAccess <= cache[j].lastAccess
  {
    if |cache| == 1 then 0
    else
      var m := |cache| - 1;
      var i := Oldest(cache[..m]);
      assert forall j :: 0 <= j < m ==> cache[..m][j] == cache[j];
      if cache[m].lastAccess < cache[i].lastAccess then m else i
  }

  function WithSlot(cache: seq<Slot>, cacheSize: int, slot: Slot): seq<Slot> {
    if |cache| >= cacheSize && cache != [] then
      var i := Oldest(cache);
      cache[..i] + cache[i + 1..] + [slot]
    else cache + [slot]
  }

  // ----- Store operations -----

  function Deduplicate(existing: seq<Bar>, bars: seq<Bar>): seq<Bar> {
    if existing == [] then bars else Newer(bars, existing[|existing| - 1].timestamp)
  }

  function Newer(bars: seq<Bar>, last: int): seq<Bar> {
    if bars == [] then []
    else
      var front := Newer(bars[..|bars| - 1], last);
      if bars[|bars| - 1].timestamp > last then front + [bars[|bars| - 1]] else front
  }

  /** Append a bar, overwriting the last one if it has the same timestamp. */
  function Append(result: seq<Bar>, b: Bar): seq<Bar> {
    if result != [] && result[|result| - 1].timestamp == b.timestamp then result[..|result| - 1] + [b] else result + [b]
  }

  function Merged(existing: seq<Bar>, bars: seq<Bar>): seq<Bar> {
    if bars == [] then existing else Append(Merged(existing, bars[..|bars| - 1]), bars[|bars| - 1])
  }

  /** Keep the newest bars. */
  function Trimmed(bars: seq<Bar>, max: nat): seq<Bar> {
    if |bars| > max then bars[|bars| - max..] else bars
  }

  function NewBars(existing: seq<Bar>, bars: seq<Bar>, max: nat): seq<Bar> {
    Trimmed(Merged(existing, Deduplicate(existing, bars)), max)
  }

  /** Make room for a symbol and timeframe. */
  function WithEntry(data: Store, symbol: string, timeframe: string): Store {
    var inner := if symbol in data then data[symbol] else map[];
    if timeframe in inner then data else data[symbol := inner[timeframe := []]]
  }

  function SetBars(data: Store, symbol: string, timeframe: string, bars: seq<Bar>): Store
    requires Stored(data, symbol, timeframe)
  {
    data[symbol := data[symbol][timeframe := bars]]
  }

  /** addBars; on an invalid bar it throws, having only created an empty entry. */
  function AfterAdd(s: State, config: Config, symbol: string, timeframe: string, bars: seq<Bar>): (State, bool) {
    var data := WithEntry(s.data, symbol, timeframe);
    if config.enableValidation && !AllValid(bars) then (s.(data := data), false)
    else
      var updated := NewBars(data[symbol][timeframe], bars, config.maxBarsPerSymbol);
      (State(SetBars(data, symbol, timeframe, updated), Invalidated(s.cache, Prefix(symbol, timeframe))), true)
  }

  function AfterGet(s: State, config: Config, q: Query, now: int): (State, seq<Bar>) {
    var hit := FindSlot(s.cache, CacheKey(q));
    if hit.Some? then
      var slot := s.cache[hit.value];
      (s.(cache := s.cache[hit.value := slot.(lastAccess := now)]), slot.bars)
    else if !Stored(s.data, q.symbol, q.timeframe) then (s, [])
    else
      var bars := Answer(s.data, q);
      (s.(cache := WithSlot(s.cache, config.cacheSize, Slot(CacheKey(q), bars, now))), bars)
  }

  /** clear; an empty or missing argument counts as absent. */
  function AfterClear(s: State, symbol: string, timeframe: string): State {
    if symbol != "" && timeframe != "" then
      var data :=
        if symbol !in s.data then s.data
        else
          var inner := s.data[symbol] - {timeframe};
          if inner == map[] then s.data - {symbol} else s.data[symbol := inner];
      State(data, Invalidated(s.cache, Prefix(symbol, timeframe)))
    else if symbol != "" then State(s.data - {symbol}, Invalidated(s.cache, symbol + ":"))
    else Empty
  }

  // ----- Coherence of the cache -----

  /** The slot holds the current direct answer to some query over the names in use. */
  ghost predicate CoherentSlot(data: Store, names: iset<Series>, slot: Slot) {
    exists q: Query :: IsAnswerTo(data, names, slot, q)
  }

  ghost predicate IsAnswerTo(data: Store, names: iset<Series>, slot: Slot, q: Query) {
    && SeriesOf(q) in names && Stored(data, q.symbol, q.timeframe)
    && slot.key == CacheKey(q) && slot.bars == Answer(data, q)
  }

  predicate UniqueKeys(cache: seq<Slot>) {
    forall i, j :: 0 <= i < j < |cache| ==> cache[i].key != cache[j].key
  }

  ghost predicate Coherent(s: State, names: iset<Series>) {
    UniqueKeys(s.cache) && forall slot :: slot in s.cache ==> CoherentSlot(s.data, names, slot)
  }

  /** A cache hit returns what a direct filter of the store would. */
  lemma HitIsAnswer(s: State, names: iset<Series>, q: Query)
    requires Coherent(s, names) && SeriesOf(q) in names && Unambiguous(names) && FindSlot(s.cache, CacheKey(q)).Some?
    ensures s.cache[FindSlot(s.cache, CacheKey(q)).value].bars == Answer(s.data, q)
    ensures Stored(s.data, q.symbol, q.timeframe)
  {
    var slot := s.cache[FindSlot(s.cache, CacheKey(q)).value];
    assert slot in s.cache && CoherentSlot(s.data, names, slot);
    var p: Query :| IsAnswerTo(s.data, names, slot, p);
    CacheKeyMeaning(p, q);
    assert SeriesOf(p) == SeriesOf(q);
  }

  /** getBars equals the direct range filter, and keeps the cache coherent. */
  lemma GetIsAnswer(s: State, names: iset<Series>, config: Config, q: Query, now: int)
    requires Coherent(s, names) && SeriesOf(q) in names && Unambiguous(names)
    ensures AfterGet(s, config, q, now).1 == Answer(s.data, q)
    ensures AfterGet(s, config, q, now).0.data == s.data && Coherent(AfterGet(s, config, q, now).0, names)
  {
    hide CacheKey, Answer;
    var hit := FindSlot(s.cache, CacheKey(q));
    var after := AfterGet(s, config, q, now).0;
    if hit.Some? {
      HitIsAnswer(s, names, q);
      forall slot | slot in after.cache
        ensures CoherentSlot(s.data, names, slot)
      {
        var i :| 0 <= i < |after.cache| && after.cache[i] == slot;
        assert s.cache[i] in s.cache && CoherentSlot(s.data, names, s.cache[i]);
        var p: Query :| IsAnswerTo(s.data, names, s.cache[i], p);
        assert IsAnswerTo(s.data, names, slot, p);
      }
    } else if Stored(s.data, q.symbol, q.timeframe) {
      assert IsAnswerTo(s.data, names, Slot(CacheKey(q), Answer(s.data, q), now), q);
      assert forall slot :: slot in after.cache ==>
        slot in s.cache || slot == Slot(CacheKey(q), Answer(s.data, q), now);
    } else {
      NothingStored(s.data, q);
    }
  }

  lemma NothingStored(data: Store, q: Query)
    requires !Stored(data, q.symbol, q.timeframe)
    ensures Answer(data, q) == []
  {
  }

  lemma {:induction false} InvalidatedMeaning(cache: seq<Slot>, prefix: string)
    ensures forall slot :: slot in Invalidated(cache, prefix) <==> slot in cache && !StartsWith(slot.key, prefix)
    ensures |Invalidated(cache, prefix)| <= |cache|
  {
    hide StartsWith;
    if cache != [] {
      var m := |cache| - 1;
      InvalidatedMeaning(cache[..m], prefix);
      assert cache == cache[..m] + [cache[m]];
    }
  }

  lemma {:induction false} InvalidatedUnique(cache: seq<Slot>, prefix: string)
    requires UniqueKeys(cache)
    ensures UniqueKeys(Invalidated(cache, prefix))
  {
    hide StartsWith;
    if cache != [] {
      var m := |cache| - 1;
      var front := Invalidated(cache[..m], prefix);
      InvalidatedUnique(cache[..m], prefix);
      InvalidatedMeaning(cache[..m], prefix);
      forall i | 0 <= i < |front|
        ensures front[i].key != cache[m].key
      {
        assert front[i] in front && front[i] in cache[..m];
      }
    }
  }

  /** The series that a query is about is the same in both stores. */
  predicate Untouched(data: Store, other: Store, q: Query)
    requires Stored(data, q.symbol, q.timeframe)
  {
    Stored(other, q.symbol, q.timeframe) && data[q.symbol][q.timeframe] == other[q.symbol][q.timeframe]
  }

  lemma SameAnswer(data: Store, other: Store, q: Query)
    requires Stored(data, q.symbol, q.timeframe) && Untouched(data, other, q)
    ensures Answer(data, q) == Answer(other, q)
  {
  }

  /** Dropping every answer that a change of the store may affect keeps the rest coherent. */
  lemma ChangeKeepsCoherent(s: State, names: iset<Series>, data: Store, prefix: string)
    requires Coherent(s, names)
    requires forall q: Query :: Stored(s.data, q.symbol, q.timeframe) && !StartsWith(CacheKey(q), prefix) ==>
      Untouched(s.data, data, q)
    ensures Coherent(State(data, Invalidated(s.cache, prefix)), names)
  {
    hide CacheKey, Answer, StartsWith, Invalidated;
    InvalidatedMeaning(s.cache, prefix);
    InvalidatedUnique(s.cache, prefix);
    forall slot | slot in Invalidated(s.cache, prefix)
      ensures CoherentSlot(data, names, slot)
    {
      assert CoherentSlot(s.data, names, slot);
      var q: Query :| IsAnswerTo(s.data, names, slot, q);
      SameAnswer(s.data, data, q);
      assert IsAnswerTo(data, names, slot, q);
    }
  }

  lemma KeyHasPrefix(q: Query)
    ensures StartsWith(CacheKey(q), Prefix(q.symbol, q.timeframe)) && StartsWith(CacheKey(q), q.symbol + ":")
  {
  }

  lemma AddKeepsCoherent(s: State, names: iset<Series>, config: Config, symbol: string, timeframe: string,
          bars: seq<Bar>)
    requires Coherent(s, names)
    ensures Coherent(AfterAdd(s, config, symbol, timeframe, bars).0, names)
  {
    var (after, ok) := AfterAdd(s, config, symbol, timeframe, bars);
    hide CacheKey, Answer, NewBars;
    if ok {
      forall q: Query | Stored(s.data, q.symbol, q.timeframe) && !StartsWith(CacheKey(q), Prefix(symbol, timeframe))
        ensures Untouched(s.data, after.data, q)
      {
        KeyHasPrefix(q);
      }
      ChangeKeepsCoherent(s, names, after.data, Prefix(symbol, timeframe));
    } else {
      forall slot | slot in s.cache
        ensures CoherentSlot(after.data, names, slot)
      {
        var q: Query :| IsAnswerTo(s.data, names, slot, q);
        SameAnswer(s.data, after.data, q);
        assert IsAnswerTo(after.data, names, slot, q);
      }
    }
  }

  lemma ClearKeepsCoherent(s: State, names: iset<Series>, symbol: string, timeframe: string)
    requires Coherent(s, names)
    ensures Coherent(AfterClear(s, symbol, timeframe), names)
  {
    hide CacheKey, Answer;
    if symbol != "" {
      var prefix := if timeframe != "" then Prefix(symbol, timeframe) else symbol + ":";
      var after := AfterClear(s, symbol, timeframe);
      forall q: Query | Stored(s.data, q.symbol, q.timeframe) && !StartsWith(CacheKey(q), prefix)
        ensures Untouched(s.data, after.data, q)
      {
        KeyHasPrefix(q);
        if q.symbol == symbol {
          assert q.timeframe in s.data[symbol] - {timeframe};
        }
      }
      ChangeKeepsCoherent(s, names, after.data, prefix);
    }
  }

  // ----- Every run -----

  datatype Op =
    | Add(symbol: string, timeframe: string, bars: seq<Bar>)
    | Get(query: Query, now: int)
    | Clear(symbol: string, timeframe: string)

  function Step(s: State, config: Config, op: Op): State {
    match op
    case Add(symbol, timeframe, bars) => AfterAdd(s, config, symbol, timeframe, bars).0
    case Get(q, now) => AfterGet(s, config, q, now).0
    case Clear(symbol, timeframe) => AfterClear(s, symbol, timeframe)
  }

  function Run(config: Config, ops: seq<Op>): State {
    if ops == [] then Empty else Step(Run(config, ops[..|ops| - 1]), config, ops[|ops| - 1])
  }

  /** Every query is over the names in use. */
  ghost predicate QueriesOver(ops: seq<Op>, names: iset<Series>) {
    forall op :: op in ops && op.Get? ==> SeriesOf(op.query) in names
  }

  lemma {:induction false} RunIsCoherent(config: Config, names: iset<Series>, ops: seq<Op>)
    requires QueriesOver(ops, names) && Unambiguous(names)
    ensures Coherent(Run(config, ops), names)
  {
    if ops != [] {
      var m := |ops| - 1;
      var s := Run(config, ops[..m]);
      assert ops[m] in ops;
      RunIsCoherent(config, names, ops[..m]);
      match ops[m]
      case Add(symbol, timeframe, bars) => AddKeepsCoherent(s, names, config, symbol, timeframe, bars);
      case Get(q, now) => GetIsAnswer(s, names, config, q, now);
      case Clear(symbol, timeframe) => ClearKeepsCoherent(s, names, symbol, timeframe);
    }
    hide Coherent, AfterAdd, AfterGet, AfterClear;
  }

  /** After any operations getBars answers the query like a direct range filter of the stored bars. */
  predicate AnswersDirectly(config: Config, ops: seq<Op>, q: Query, now: int) {
    AfterGet(Run(config, ops), config, q, now).1 == Answer(Run(config, ops).data, q)
  }

  lemma QueriesAreDirect(config: Config, names: iset<Series>, ops: seq<Op>, q: Query, now: int)
    requires QueriesOver(ops, names) && SeriesOf(q) in names && Unambiguous(names)
    ensures AnswersDirectly(config, ops, q, now)
  {
    RunIsCoherent(config, names, ops);
    GetIsAnswer(Run(config, ops), names, config, q, now);
  }

  /** In particular when no timeframe, or no symbol, of a query has a colon. */
  lemma ColonFreeQueriesAreDirect(config: Config, ops: seq<Op>, q: Query, now: int)
    requires
      || (NoColon(q.timeframe) && forall op :: op in ops && op.Get? ==> NoColon(op.query.timeframe))
      || (NoColon(q.symbol) && forall op :: op in ops && op.Get? ==> NoColon(op.query.symbol))
    ensures AnswersDirectly(config, ops, q, now)
  {
    var names := iset op | op in ops && op.Get? :: SeriesOf(op.query);
    names := names + iset{SeriesOf(q)};
    if NoColon(q.timeframe) && forall op :: op in ops && op.Get? ==> NoColon(op.query.timeframe) {
      ColonFreeTimeframes(names);
    } else {
      ColonFreeSymbols(names);
    }
    QueriesAreDirect(config, names, ops, q, now);
    hide AnswersDirectly, Unambiguous;
  }

  /** The cache never exceeds its size, or one slot if the size is smaller. */
  lemma {:induction false} CacheIsBounded(config: Config, ops: seq<Op>)
    ensures |Run(config, ops).cache| <= if config.cacheSize < 1 then 1 else config.cacheSize
  {
    if ops != [] {
      var m := |ops| - 1;
      CacheIsBounded(config, ops[..m]);
      var s := Run(config, ops[..m]);
      match ops[m]
      case Add(symbol, timeframe, bars) => InvalidatedMeaning(s.cache, Prefix(symbol, timeframe));
      case Get(q, now) =>
      case Clear(symbol, timeframe) =>
        InvalidatedMeaning(s.cache, Prefix(symbol, timeframe));
        InvalidatedMeaning(s.cache, symbol + ":");
    }
    hide CacheKey, Answer, NewBars, AllValid;
  }

  /** Two names spelled alike share their keys: a query for one is answered with the other's bars. */
  lemma CollisionBreaksTheCache(config: Config, m: Series, n: Series, b: Bar)
    requires m != n && Spelling(m) == Spelling(n) && ValidBar(b) && config.maxBarsPerSymbol > 0
    ensures !AnswersDirectly(config, [Add(m.symbol, m.timeframe, [b]), Get(Whole(m), 0)], Whole(n), 1)
  {
    hide AfterAdd, AfterGet, CacheKey, Filter, ValidBar, Run, Spelling;
    RunTwo(config, Add(m.symbol, m.timeframe, [b]), Get(Whole(m), 0));
    AddToEmpty(config, m.symbol, m.timeframe, b);
    FilterOne(b);
    MissThenHit(map[m.symbol := map[m.timeframe := [b]]], config, Whole(m), [b]);
    CacheKeyMeaning(Whole(m), Whole(n));
  }

  /** The query for a whole series. */
  function Whole(name: Series): Query {
    Query(name.symbol, name.timeframe, None, None)
  }

  /** For example a symbol that ends where the other's timeframe begins. */
  lemma ColonBreaksTheCache(config: Config, b: Bar)
    requires ValidBar(b) && config.maxBarsPerSymbol > 0
    ensures !AnswersDirectly(config, [Add("A", "B:C", [b]), Get(Whole(Series("A", "B:C")), 0)],
      Whole(Series("A:B", "C")), 1)
  {
    assert "A" + ":" + "B:C" == "A:B" + ":" + "C";
    hide AnswersDirectly, ValidBar;
    CollisionBreaksTheCache(config, Series("A", "B:C"), Series("A:B", "C"), b);
  }

  /** Without room for bars every series and every answer stays empty. */
  predicate AllEmpty(s: State) {
    && (forall symbol :: symbol in s.data ==> forall timeframe :: timeframe in s.data[symbol] ==>
         s.data[symbol][timeframe] == [])
    && (forall slot :: slot in s.cache ==> slot.bars == [])
  }

  lemma StepKeepsEmpty(s: State, config: Config, op: Op)
    requires AllEmpty(s) && config.maxBarsPerSymbol == 0
    ensures AllEmpty(Step(s, config, op))
  {
    match op
    case Add(symbol, timeframe, bars) =>
      hide Merged, Deduplicate, AllValid, Prefix;
      InvalidatedMeaning(s.cache, Prefix(symbol, timeframe));
    case Get(q, now) =>
      GetKeepsEmpty(s, config, q, now);
    case Clear(symbol, timeframe) =>
      hide Prefix;
      InvalidatedMeaning(s.cache, Prefix(symbol, timeframe));
      InvalidatedMeaning(s.cache, symbol + ":");
  }

  lemma GetKeepsEmpty(s: State, config: Config, q: Query, now: int)
    requires AllEmpty(s)
    ensures AllEmpty(AfterGet(s, config, q, now).0)
    ensures AfterGet(s, config, q, now).1 == Answer(s.data, q) == []
  {
    hide CacheKey, Oldest;
    var hit := FindSlot(s.cache, CacheKey(q));
    if hit.Some? {
      assert s.cache[hit.value] in s.cache;
    }
  }

  lemma {:induction false} RunIsEmpty(config: Config, ops: seq<Op>)
    requires config.maxBarsPerSymbol == 0
    ensures AllEmpty(Run(config, ops))
  {
    if ops != [] {
      RunIsEmpty(config, ops[..|ops| - 1]);
      StepKeepsEmpty(Run(config, ops[..|ops| - 1]), config, ops[|ops| - 1]);
    }
    hide AllEmpty, Step;
  }

  ghost predicate DirectOver(config: Config, names: iset<Series>, ops: seq<Op>, q: Query, now: int) {
    QueriesOver(ops, names) && SeriesOf(q) in names ==> AnswersDirectly(config, ops, q, now)
  }

  /** Every run over the names in use answers directly exactly when no two are spelled alike, or nothing is kept. */
  lemma QueriesAreDirectExactly(config: Config, names: iset<Series>)
    ensures (forall ops: seq<Op>, q: Query, now: int :: DirectOver(config, names, ops, q, now))
      <==> Unambiguous(names) || config.maxBarsPerSymbol == 0
  {
    hide AnswersDirectly, Spelling;
    if Unambiguous(names) || config.maxBarsPerSymbol == 0 {
      forall ops: seq<Op>, q: Query, now: int
        ensures DirectOver(config, names, ops, q, now)
      {
        if QueriesOver(ops, names) && SeriesOf(q) in names {
          if Unambiguous(names) {
            QueriesAreDirect(config, names, ops, q, now);
          } else {
            EmptyAnswersDirectly(config, ops, q, now);
          }
        }
      }
    } else {
      var m, n :| m in names && n in names && Spelling(m) == Spelling(n) && m != n;
      var b := Bar(0, 1.0, 1.0, 1.0, 1.0, 0.0);
      CollisionBreaksTheCache(config, m, n, b);
      assert !DirectOver(config, names, [Add(m.symbol, m.timeframe, [b]), Get(Whole(m), 0)], Whole(n), 1);
    }
  }

  lemma EmptyAnswersDirectly(config: Config, ops: seq<Op>, q: Query, now: int)
    requires config.maxBarsPerSymbol == 0
    ensures AnswersDirectly(config, ops, q, now)
  {
    RunIsEmpty(config, ops);
    GetKeepsEmpty(Run(config, ops), config, q, now);
  }

  lemma RunTwo(config: Config, first: Op, second: Op)
    ensures Run(config, [first, second]) == Step(Step(Empty, config, first), config, second)
  {
    hide Step;
    assert [first, second][..1] == [first] && [first][..0] == [];
    assert Run(config, [first]) == Step(Empty, config, first);
  }

  /** A query on an empty cache leaves exactly its own answer there, for any query with that key. */
  lemma MissThenHit(data: Store, config: Config, q: Query, bars: seq<Bar>)
    requires Stored(data, q.symbol, q.timeframe) && Answer(data, q) == bars
    ensures AfterGet(State(data, []), config, q, 0).0.data == data
    ensures forall p: Query :: CacheKey(p) == CacheKey(q) ==>
      AfterGet(AfterGet(State(data, []), config, q, 0).0, config, p, 1).1 == bars
  {
    hide CacheKey, Answer, Stored, Oldest;
    assert AfterGet(State(data, []), config, q, 0).0 == State(data, [Slot(CacheKey(q), bars, 0)]);
  }

  lemma FilterOne(b: Bar)
    ensures Filter([b], None, None) == [b] && Filter([], None, None) == []
  {
    assert [b][..0] == [];
  }

  lemma MergeOne(b: Bar)
    ensures Merged([], [b]) == [b]
  {
    assert [b][..0] == [];
  }

  lemma AddToEmpty(config: Config, symbol: string, timeframe: string, b: Bar)
    requires ValidBar(b) && config.maxBarsPerSymbol > 0
    ensures AfterAdd(Empty, config, symbol, timeframe, [b]).0 == State(map[symbol := map[timeframe := [b]]], [])
  {
    hide Merged, ValidBar;
    MergeOne(b);
    assert NewBars([], [b], config.maxBarsPerSymbol) == [b];
    assert Invalidated([], Prefix(symbol, timeframe)) == [];
    hide NewBars, Invalidated, Prefix;
    assert AllValid([b]);
    var data := WithEntry(map[], symbol, timeframe);
    assert data == map[symbol := map[timeframe := []]];
    assert data[symbol][timeframe := [b]] == map[timeframe := [b]];
    assert SetBars(data, symbol, timeframe, [b]) == map[symbol := map[timeframe := [b]]];
  }

  // ----- Time order -----

  predicate Sorted(bars: seq<Bar>) {
    forall i, j :: 0 <= i < j < |bars| ==> bars[i].timestamp <= bars[j].timestamp
  }

  predicate StrictlyIncreasing(bars: seq<Bar>) {
    forall i, j :: 0 <= i < j < |bars| ==> bars[i].timestamp < bars[j].timestamp
  }

  function Last(bars: seq<Bar>): int
    requires bars != []
  {
    bars[|bars| - 1].timestamp
  }

  lemma {:induction false} NewerMeaning(bars: seq<Bar>, last: int)
    ensures forall b :: b in Newer(bars, last) <==> b in bars && b.timestamp > last
  {
    if bars != [] {
      var m := |bars| - 1;
      NewerMeaning(bars[..m], last);
      assert bars == bars[..m] + [bars[m]];
    }
  }

  lemma {:induction false} NewerSorted(bars: seq<Bar>, last: int)
    requires Sorted(bars)
    ensures Sorted(Newer(bars, last))
  {
    if bars != [] {
      var m := |bars| - 1;
      var front := Newer(bars[..m], last);
      NewerSorted(bars[..m], last);
      NewerMeaning(bars[..m], last);
      forall i | 0 <= i < |front|
        ensures front[i].timestamp <= bars[m].timestamp
      {
        assert front[i] in front && front[i] in bars[..m];
      }
    }
  }

  /** Merging later, sorted bars keeps a series strictly increasing and ends it at the last of them. */
  lemma {:induction false} MergeIncreasing(existing: seq<Bar>, bars: seq<Bar>)
    requires StrictlyIncreasing(existing) && Sorted(bars)
    requires existing != [] ==> forall b :: b in bars ==> b.timestamp > Last(existing)
    ensures StrictlyIncreasing(Merged(existing, bars))
    ensures bars != [] ==> Merged(existing, bars) != [] && Last(Merged(existing, bars)) == Last(bars)
  {
    if bars != [] {
      var m := |bars| - 1;
      MergeIncreasing(existing, bars[..m]);
      assert bars[m] in bars && forall b :: b in bars[..m] ==> b in bars;
      if m > 0 {
        assert bars[m - 1] == bars[..m][m - 1];
      }
      AppendIncreasing(Merged(existing, bars[..m]), bars[m]);
      hide StrictlyIncreasing, Append, Sorted;
    }
  }

  lemma AppendIncreasing(result: seq<Bar>, b: Bar)
    requires StrictlyIncreasing(result)
    requires result != [] ==> Last(result) <= b.timestamp
    ensures StrictlyIncreasing(Append(result, b)) && Append(result, b) != [] && Last(Append(result, b)) == b.timestamp
  {
  }

  /** Merging ends a series at the last of the bars merged into it. */
  lemma {:induction false} MergeEndsAtLast(existing: seq<Bar>, bars: seq<Bar>)
    requires bars != []
    ensures Merged(existing, bars) != [] && Last(Merged(existing, bars)) == Last(bars)
  {
  }

  predicate UpTo(bars: seq<Bar>, last: int) {
    forall b :: b in bars ==> b.timestamp <= last
  }

  /** Adding a batch again changes nothing exactly when no bar of it is later than the last bar stored. */
  lemma AddingAgain(r: seq<Bar>, bars: seq<Bar>, max: nat)
    requires r != [] && |r| <= max
    ensures NewBars(r, bars, max) == r <==> UpTo(bars, Last(r))
  {
    NewerMeaning(bars, Last(r));
    var newer := Newer(bars, Last(r));
    if newer != [] {
      MergeEndsAtLast(r, newer);
      assert newer[|newer| - 1] in newer;
    }
  }

  /** Adding a time-sorted batch twice equals adding it once. */
  lemma AddingTwiceIsAddingOnce(existing: seq<Bar>, bars: seq<Bar>, max: nat)
    requires Sorted(bars)
    ensures NewBars(NewBars(existing, bars, max), bars, max) == NewBars(existing, bars, max)
  {
    hide Newer, Merged;
    var r := NewBars(existing, bars, max);
    if r != [] {
      EndsNoEarlier(existing, bars, max);
      AddingAgain(r, bars, max);
    } else if max > 0 {
      EmptyAdd(existing, bars, max);
    }
  }

  /** addBars twice with a time-sorted batch is addBars once: the same store, cache and outcome, failures included. */
  lemma AddingTwiceChangesNothing(s: State, config: Config, symbol: string, timeframe: string, bars: seq<Bar>)
    requires Sorted(bars)
    ensures var once := AfterAdd(s, config, symbol, timeframe, bars);
      AfterAdd(once.0, config, symbol, timeframe, bars) == once
  {
    hide NewBars, Invalidated, Prefix, Sorted;
    var (once, ok) := AfterAdd(s, config, symbol, timeframe, bars);
    EntryIsThere(s.data, symbol, timeframe);
    if ok {
      var existing := WithEntry(s.data, symbol, timeframe)[symbol][timeframe];
      AddingTwiceIsAddingOnce(existing, bars, config.maxBarsPerSymbol);
      InvalidatedTwice(s.cache, Prefix(symbol, timeframe));
      assert once.data[symbol][timeframe := once.data[symbol][timeframe]] == once.data[symbol];
      assert once.data[symbol := once.data[symbol]] == once.data;
    }
  }

  lemma EntryIsThere(data: Store, symbol: string, timeframe: string)
    ensures WithEntry(WithEntry(data, symbol, timeframe), symbol, timeframe) == WithEntry(data, symbol, timeframe)
  {
  }

  lemma {:induction false} NothingInvalidated(cache: seq<Slot>, prefix: string)
    requires forall slot :: slot in cache ==> !StartsWith(slot.key, prefix)
    ensures Invalidated(cache, prefix) == cache
  {
    hide StartsWith;
    if cache != [] {
      var m := |cache| - 1;
      assert cache == cache[..m] + [cache[m]];
      NothingInvalidated(cache[..m], prefix);
    }
  }

  lemma InvalidatedTwice(cache: seq<Slot>, prefix: string)
    ensures Invalidated(Invalidated(cache, prefix), prefix) == Invalidated(cache, prefix)
  {
    InvalidatedMeaning(cache, prefix);
    NothingInvalidated(Invalidated(cache, prefix), prefix);
    hide Invalidated, StartsWith;
  }

  lemma EmptyAdd(existing: seq<Bar>, bars: seq<Bar>, max: nat)
    requires max > 0 && NewBars(existing, bars, max) == []
    ensures existing == [] && bars == []
  {
  }

  lemma EndsNoEarlier(existing: seq<Bar>, bars: seq<Bar>, max: nat)
    requires Sorted(bars) && NewBars(existing, bars, max) != []
    ensures UpTo(bars, Last(NewBars(existing, bars, max)))
  {
    var later := Deduplicate(existing, bars);
    if existing != [] {
      NewerMeaning(bars, Last(existing));
      NewerSorted(bars, Last(existing));
    }
    hide Newer;
    if later != [] {
      MergeEndsAtLast(existing, later);
      forall b | b in bars
        ensures b.timestamp <= Last(later)
      {
        if b in later {
        } else {
          assert later[0] in later;
        }
      }
    }
  }

  ghost predicate AllIncreasing(data: Store) {
    forall symbol, timeframe :: Stored(data, symbol, timeframe) ==>
      StrictlyIncreasing(StoredBars(data, symbol, timeframe))
  }

  lemma NewBarsIncreasing(existing: seq<Bar>, bars: seq<Bar>, max: nat)
    requires StrictlyIncreasing(existing) && Sorted(bars)
    ensures StrictlyIncreasing(NewBars(existing, bars, max))
  {
    if existing != [] {
      NewerMeaning(bars, Last(existing));
      NewerSorted(bars, Last(existing));
    }
    hide Newer, Merged;
    MergeIncreasing(existing, Deduplicate(existing, bars));
  }

  lemma AddKeepsIncreasing(s: State, config: Config, symbol: string, timeframe: string, bars: seq<Bar>)
    requires AllIncreasing(s.data) && Sorted(bars)
    ensures AllIncreasing(AfterAdd(s, config, symbol, timeframe, bars).0.data)
  {
    hide StrictlyIncreasing, Sorted, NewBars, Invalidated;
    var after := AfterAdd(s, config, symbol, timeframe, bars).0;
    forall a: string, t: string | Stored(after.data, a, t)
      ensures StrictlyIncreasing(StoredBars(after.data, a, t))
    {
      var existing := StoredBars(s.data, symbol, timeframe);
      NothingIncreases();
      if a == symbol && t == timeframe {
        NewBarsIncreasing(existing, bars, config.maxBarsPerSymbol);
      } else {
        assert Stored(s.data, a, t) && StoredBars(after.data, a, t) == StoredBars(s.data, a, t);
      }
    }
  }

  lemma NothingIncreases()
    ensures StrictlyIncreasing([])
  {
  }

  predicate SortedBatches(ops: seq<Op>) {
    forall op :: op in ops && op.Add? ==> Sorted(op.bars)
  }

  /** With time-sorted batches every stored series is strictly increasing, whatever else was called. */
  lemma {:induction false} StoredBarsIncrease(config: Config, ops: seq<Op>)
    requires SortedBatches(ops)
    ensures AllIncreasing(Run(config, ops).data)
  {
    if ops != [] {
      var m := |ops| - 1;
      var s := Run(config, ops[..m]);
      assert ops[m] in ops;
      StoredBarsIncrease(config, ops[..m]);
      match ops[m]
      case Add(symbol, timeframe, bars) =>
        AddKeepsIncreasing(s, config, symbol, timeframe, bars);
        hide AllIncreasing;
      case Get(q, now) =>
        GetKeepsData(s, config, q, now);
      case Clear(symbol, timeframe) =>
        ClearKeepsIncreasing(s, symbol, timeframe);
    }
    hide AfterAdd, AfterGet, AfterClear, StoredBars;
  }

  lemma GetKeepsData(s: State, config: Config, q: Query, now: int)
    ensures AfterGet(s, config, q, now).0.data == s.data
  {
  }

  lemma ClearKeepsIncreasing(s: State, symbol: string, timeframe: string)
    requires AllIncreasing(s.data)
    ensures AllIncreasing(AfterClear(s, symbol, timeframe).data)
  {
    hide StrictlyIncreasing, Invalidated;
    var after := AfterClear(s, symbol, timeframe);
    forall a: string, t: string | Stored(after.data, a, t)
      ensures StrictlyIncreasing(StoredBars(after.data, a, t))
    {
      assert Stored(s.data, a, t) && StoredBars(after.data, a, t) == StoredBars(s.data, a, t);
    }
  }

  // ----- The engine -----

  class DataEngine {
    const config: Config
    var data: Store
    var cache: seq<Slot>

    function View(): State
      reads this
    {
      State(data, cache)
    }

    constructor (config: Config)
      ensures this.config == config && View() == Empty
    {
      this.config := config;
      data := map[];
      cache := [];
    }

    /** Returns false where the source throws on an invalid bar. */
    method AddBars(symbol: string, timeframe: string, bars: seq<Bar>) returns (ok: bool)
      modifies this
      ensures (View(), ok) == AfterAdd(old(View()), config, symbol, timeframe, bars)
    {
      hide Invalidated, Newer, Merged;
      if symbol !in data {
        data := data[symbol := map[]];
      }
      if timeframe !in data[symbol] {
        data := data[symbol := data[symbol][timeframe := []]];
      }
      assert data == WithEntry(old(data), symbol, timeframe);
      var existing := data[symbol][timeframe];
      if config.enableValidation {
        for i := 0 to |bars|
          invariant AllValid(bars[..i])
          invariant unchanged(`cache) && data == WithEntry(old(data), symbol, timeframe)
        {
          if !ValidBar(bars[i]) {
            assert bars[i] in bars;
            return false;
          }
        }
        assert bars[..|bars|] == bars;
      }
      var filtered := DeduplicateBars(existing, bars);
      var merged := Merge(existing, filtered);
      if |merged| > config.maxBarsPerSymbol {
        data := data[symbol := data[symbol][timeframe := merged[|merged| - config.maxBarsPerSymbol..]]];
      } else {
        data := data[symbol := data[symbol][timeframe := merged]];
      }
      InvalidateCache(symbol, timeframe);
      ok := true;
    }

    method DeduplicateBars(existing: seq<Bar>, bars: seq<Bar>) returns (r: seq<Bar>)
      ensures r == Deduplicate(existing, bars)
    {
      if existing == [] {
        return bars;
      }
      var last := existing[|existing| - 1].timestamp;
      r := [];
      for i := 0 to |bars|
        invariant r == Newer(bars[..i], last)
      {
        assert bars[..i + 1][..i] == bars[..i];
        if bars[i].timestamp > last {
          r := r + [bars[i]];
        }
      }
      assert bars[..|bars|] == bars;
    }

    method Merge(existing: seq<Bar>, bars: seq<Bar>) returns (result: seq<Bar>)
      ensures result == Merged(existing, bars)
    {
      result := existing;
      for i := 0 to |bars|
        invariant result == Merged(existing, bars[..i])
      {
        assert bars[..i + 1][..i] == bars[..i];
        var lastIndex := |result| - 1;
        if lastIndex >= 0 && result[lastIndex].timestamp == bars[i].timestamp {
          result := result[lastIndex := bars[i]];
        } else {
          result := result + [bars[i]];
        }
      }
      assert bars[..|bars|] == bars;
    }

    method Invalidate(prefix: string)
      modifies this`cache
      ensures cache == Invalidated(old(cache), prefix)
    {
      var slots := cache;
      cache := [];
      for i := 0 to |slots|
        invariant cache == Invalidated(slots[..i], prefix)
      {
        assert slots[..i + 1][..i] == slots[..i];
        if !(prefix <= slots[i].key) {
          cache := cache + [slots[i]];
        }
      }
      assert slots[..|slots|] == slots;
    }

    method InvalidateCache(symbol: string, timeframe: string)
      modifies this`cache
      ensures cache == Invalidated(old(cache), Prefix(symbol, timeframe))
    {
      Invalidate(symbol + ":" + timeframe + ":");
    }

    method GetBars(q: Query, now: int) returns (bars: seq<Bar>)
      modifies this
      ensures (View(), bars) == AfterGet(old(View()), config, q, now)
    {
      hide CacheKey, Filter, Oldest;
      var cacheKey := CacheKey(q);
      var hit := FindSlot(cache, cacheKey);
      if hit.Some? {
        cache := cache[hit.value := cache[hit.value].(lastAccess := now)];
        return cache[hit.value].bars;
      }
      if q.symbol !in data || q.timeframe !in data[q.symbol] {
        return [];
      }
      bars := FilterBars(data[q.symbol][q.timeframe], q.start, q.end);
      AddToCache(cacheKey, bars, now);
    }

    method FilterBars(bars: seq<Bar>, start: Option<int>, end: Option<int>) returns (result: seq<Bar>)
      ensures result == Filter(bars, start, end)
    {
      result := [];
      for i := 0 to |bars|
        invariant result == Filter(bars[..i], start, end)
      {
        assert bars[..i + 1][..i] == bars[..i];
        if InRange(bars[i], start, end) {
          result := result + [bars[i]];
        }
      }
      assert bars[..|bars|] == bars;
    }

    method AddToCache(key: string, bars: seq<Bar>, now: int)
      modifies this`cache
      ensures cache == WithSlot(old(cache), config.cacheSize, Slot(key, bars, now))
    {
      if |cache| >= config.cacheSize && cache != [] {
        var oldest := 0;
        assert Oldest(cache[..1]) == 0;
        for j := 1 to |cache|
          invariant unchanged(`cache)
          invariant oldest < j && oldest == Oldest(cache[..j])
        {
          assert cache[..j + 1][..j] == cache[..j];
          if cache[j].lastAccess < cache[oldest].lastAccess {
            oldest := j;
          }
        }
        assert cache[..|cache|] == cache;
        cache := cache[..oldest] + cache[oldest + 1..];
      }
      cache := cache + [Slot(key, bars, now)];
    }

    /** An empty argument stands for a missing one, as the source tests for truth. */
    method Clear(symbol: string, timeframe: string)
      modifies this
      ensures View() == AfterClear(old(View()), symbol, timeframe)
    {
      hide Invalidated;
      if symbol != "" && timeframe != "" {
        if symbol in data {
          data := data[symbol := data[symbol] - {timeframe}];
          if |data[symbol]| == 0 {
            data := data - {symbol};
          }
        }
        InvalidateCache(symbol, timeframe);
      } else if symbol != "" {
        data := data - {symbol};
        Invalidate(symbol + ":");
      } else {
        data := map[];
        cache := [];
      }
    }
  }
}
