/** The decisions one close makes (src/trading/close-manager.ts, src/trading/bot-engine.ts). */
module CloseDecisions {
  import opened Prelude

  const MAX_PARALLEL_CLOSES := 4

  datatype CloseMode = Emergency | Graceful

  function MaxRetries(mode: CloseMode): nat {
    match mode
    case Emergency => 1
    case Graceful => 3
  }

  /** A signature is the number of a transaction sent to the chain. */
  type Signature = nat

  /** The name of a position: symbol and timeframe joined by a colon. */
  type Key = string

  type RunId = nat

  datatype Verdict = Closed(signature: Signature) | Failed | TimedOut

  datatype AttemptResult = Sold(signature: Signature) | NotSold(retryable: bool)

  // ----- Which errors may be retried -----

  function Lower(c: char): char {
    if 'A' <= c <= 'Z' then c - 'A' + 'a' else c
  }

  function ToLower(s: string): (r: string)
    ensures |r| == |s| && forall k :: 0 <= k < |s| ==> r[k] == Lower(s[k])
  {
    if s == "" then "" else ToLower(s[..|s| - 1]) + [Lower(s[|s| - 1])]
  }

  predicate Contains(s: string, part: string) {
    exists i :: 0 <= i <= |s| && part <= s[i..]
  }

  predicate IsRetryableError(message: string) {
    var m := ToLower(message);
    Contains(m, "429") || Contains(m, "rate limit") || Contains(m, "blockhash") || Contains(m, "expired")
  }

  /** Equal but for the case of a letter. */
  predicate SameLetter(a: char, b: char) {
    || a == b
    || ('a' <= a <= 'z' && a as int - b as int == 'a' as int - 'A' as int)
    || ('a' <= b <= 'z' && b as int - a as int == 'a' as int - 'A' as int)
  }

  predicate OccursAt(message: string, phrase: string, i: nat) {
    i + |phrase| <= |message| && forall k :: 0 <= k < |phrase| ==> SameLetter(message[i + k], phrase[k])
  }

  /** The phrases by which an error says that the request was declined or the blockhash expired: nothing was sent. */
  const DECLINES := {"429", "rate limit", "blockhash", "expired"}

  ghost predicate Declined(message: string) {
    exists phrase, i: nat :: phrase in DECLINES && OccursAt(message, phrase, i)
  }

  predicate NoCapital(s: string) {
    forall k :: 0 <= k < |s| ==> !('A' <= s[k] <= 'Z')
  }

  lemma ContainsMeaning(message: string, phrase: string)
    requires NoCapital(phrase)
    ensures Contains(ToLower(message), phrase) <==> exists i: nat :: OccursAt(message, phrase, i)
  {
    hide ToLower;
    var m := ToLower(message);
    if i: nat :| OccursAt(message, phrase, i) {
      assert forall k :: 0 <= k < |phrase| ==> m[i..][k] == phrase[k];
      assert phrase <= m[i..];
    }
    if i :| 0 <= i <= |m| && phrase <= m[i..] {
      assert forall k :: 0 <= k < |phrase| ==> phrase[k] == m[i..][k] == Lower(message[i + k]);
      assert OccursAt(message, phrase, i);
    }
  }

  /** An error is retried exactly when one of the four phrases occurs in it somewhere, in whatever case. */
  lemma RetryableMeaning(message: string)
    ensures IsRetryableError(message) <==> Declined(message)
  {
    hide ToLower, Contains, OccursAt;
    ContainsMeaning(message, "429");
    ContainsMeaning(message, "rate limit");
    ContainsMeaning(message, "blockhash");
    ContainsMeaning(message, "expired");
  }

  // ----- The retry loop -----

  /** What an attempt's result means for the loop: a verdict, or nothing when it is to try again. */
  function Decide(result: AttemptResult, attempt: nat, maxRetries: nat): Option<Verdict> {
    match result
    case Sold(signature) => Some(Closed(signature))
    case NotSold(retryable) => if retryable && attempt != maxRetries then None else Some(Failed)
  }

  /** What the loop sees at the top of an attempt and, if it goes on, as its result. */
  datatype Observation = BudgetSpent | NotOpen | Tried(result: AttemptResult)

  function DecideObserved(o: Observation, attempt: nat, maxRetries: nat): Option<Verdict> {
    match o
    case BudgetSpent => Some(TimedOut)
    case NotOpen => Some(Failed)
    case Tried(result) => Decide(result, attempt, maxRetries)
  }

  predicate Retryable(o: Observation) {
    o.Tried? && o.result.NotSold? && o.result.retryable
  }

  /** The retry loop of one close, run on what it will observe. */
  method ClosePosition(observed: seq<Observation>, maxRetries: nat) returns (verdict: Verdict, attempts: nat)
    requires |observed| == maxRetries + 1
    ensures 1 <= attempts <= maxRetries + 1
    ensures forall a :: 0 <= a < attempts - 1 ==> Retryable(observed[a])
    ensures attempts <= maxRetries ==> !Retryable(observed[attempts - 1])
    ensures verdict.TimedOut? <==> observed[attempts - 1].BudgetSpent?
    ensures verdict.Closed? <==> observed[attempts - 1].Tried? && observed[attempts - 1].result.Sold?
    ensures verdict.Closed? ==> verdict.signature == observed[attempts - 1].result.signature
    ensures DecideObserved(observed[attempts - 1], attempts - 1, maxRetries) == Some(verdict)
  {
    var attempt := 0;
    while attempt <= maxRetries
      invariant attempt <= maxRetries
      invariant forall a :: 0 <= a < attempt ==> Retryable(observed[a])
      decreases maxRetries - attempt
    {
      match observed[attempt]
      case BudgetSpent => return TimedOut, attempt + 1;
      case NotOpen => return Failed, attempt + 1;
      case Tried(Sold(signature)) => return Closed(signature), attempt + 1;
      case Tried(NotSold(retryable)) =>
        if !retryable {
          return Failed, attempt + 1;
        }
        if attempt == maxRetries {
          return Failed, attempt + 1;
        }
      attempt := attempt + 1;
    }
    assert false;
  }

  // ----- Reporting a verdict once -----

  /** A later confirmed close upgrades an earlier verdict; nothing else fires twice. */
  function Fire(fired: seq<Verdict>, v: Verdict): seq<Verdict> {
    if fired != [] && !v.Closed? then fired else fired + [v]
  }

  class VerdictReporter {
    var verdictFired: bool
    /** The verdicts whose side effects ran, in order. */
    var fired: seq<Verdict>

    predicate Valid()
      reads this
    {
      verdictFired <==> fired != []
    }

    constructor ()
      ensures Valid() && fired == []
    {
      verdictFired := false;
      fired := [];
    }

    method FireVerdict(v: Verdict)
      requires Valid()
      modifies this
      ensures Valid() && fired == Fire(old(fired), v)
    {
      var isClosedUpgrade := v.Closed? && verdictFired;
      if verdictFired && !isClosedUpgrade {
        return;
      }
      verdictFired := true;
      fired := fired + [v];
    }
  }

  // ----- Tombstones -----

  /** A close is refused when another run left an unconfirmed attempt. */
  predicate Refused(tombstones: map<Key, RunId>, key: Key, run: RunId) {
    key in tombstones && tombstones[key] != run
  }

  datatype Direction = Long | Short | Flat

  /** What the executor keeps for a symbol and timeframe. */
  datatype Holding = Holding(symbol: string, direction: Direction, quantity: real, entryPrice: real, entryTime: int)

  function Flattened(symbol: string): Holding {
    Holding(symbol, Flat, 0.0, 0.0, 0)
  }

  /** The engine's guards against selling a position twice. */
  class CloseGuard {
    var closeRunInProgress: bool
    var closeAttempts: map<Key, RunId>
    /** The executor's positions, until it is torn down. */
    var executor: Option<map<Key, Holding>>
    /** The positions broadcast as flat, in order. */
    var broadcast: seq<Key>

    constructor (holdings: map<Key, Holding>)
      ensures !closeRunInProgress && closeAttempts == map[] && executor == Some(holdings) && broadcast == []
    {
      closeRunInProgress := false;
      closeAttempts := map[];
      executor := Some(holdings);
      broadcast := [];
    }

    method TryBeginCloseRun() returns (ok: bool)
      modifies this`closeRunInProgress
      ensures closeRunInProgress && ok == !old(closeRunInProgress)
    {
      if closeRunInProgress {
        return false;
      }
      closeRunInProgress := true;
      return true;
    }

    method EndCloseRun()
      modifies this`closeRunInProgress
      ensures !closeRunInProgress
    {
      closeRunInProgress := false;
    }

    method PrepareCloseAttempt(key: Key, run: RunId) returns (refused: bool)
      modifies this`closeAttempts
      ensures refused == Refused(old(closeAttempts), key, run)
      ensures closeAttempts == if refused then old(closeAttempts) else old(closeAttempts)[key := run]
    {
      if key in closeAttempts && closeAttempts[key] != run {
        return true;
      }
      closeAttempts := closeAttempts[key := run];
      return false;
    }

    method HandlePositionClosed(symbol: string, timeframe: string, verdict: Verdict)
      modifies this`closeAttempts, this`executor, this`broadcast
      ensures !verdict.Closed? ==> unchanged(this)
      ensures verdict.Closed? ==>
        var key := symbol + ":" + timeframe;
        && closeAttempts == old(closeAttempts) - {key}
        && broadcast == old(broadcast) + [key]
        && (executor.Some? <==> old(executor).Some?)
        && (executor.Some? ==>
              && executor.value.Keys == old(executor).value.Keys
              && forall k :: k in executor.value ==>
                   executor.value[k] == if k == key then Flattened(symbol) else old(executor).value[k])
    {
      if !verdict.Closed? {
        return;
      }
      var key := symbol + ":" + timeframe;
      if executor.Some? && key in executor.value {
        executor := Some(executor.value[key := Flattened(symbol)]);
      }
      broadcast := broadcast + [key];
      closeAttempts := closeAttempts - {key};
    }
  }

  // ----- The summary of a run -----

  datatype Summary = Summary(total: nat, closed: nat, failed: nat, timedOut: nat,
                             failedSymbols: seq<Key>, timedOutSymbols: seq<Key>)

  /** A position without a recorded result was still in flight. */
  function ResultOf(results: map<Key, Verdict>, key: Key): Verdict {
    if key in results then results[key] else TimedOut
  }

  /** The keys that satisfy p, in order. */
  function Select(keys: seq<Key>, p: Key -> bool): seq<Key> {
    if keys == [] then []
    else Select(keys[..|keys| - 1], p) + if p(keys[|keys| - 1]) then [keys[|keys| - 1]] else []
  }

  function Summarize(keys: seq<Key>, results: map<Key, Verdict>): Summary {
    Summary(|keys|,
            |Select(keys, k => ResultOf(results, k).Closed?)|,
            |Select(keys, k => ResultOf(results, k).Failed?)|,
            |Select(keys, k => ResultOf(results, k).TimedOut?)|,
            Select(keys, k => !ResultOf(results, k).Closed?),
            Select(keys, k => ResultOf(results, k).TimedOut?))
  }

  method Aggregate(keys: seq<Key>, results: map<Key, Verdict>) returns (s: Summary)
    ensures s == Summarize(keys, results)
  {
    var closed, failed, timedOut := 0, 0, 0;
    var failedSymbols, timedOutSymbols := [], [];
    for i := 0 to |keys|
      invariant Summary(i, closed, failed, timedOut, failedSymbols, timedOutSymbols) == Summarize(keys[..i], results)
    {
      assert keys[..i + 1][..i] == keys[..i];
      match ResultOf(results, keys[i])
      case Closed(_) =>
        closed := closed + 1;
      case Failed =>
        failed := failed + 1;
        failedSymbols := failedSymbols + [keys[i]];
      case TimedOut =>
        timedOut := timedOut + 1;
        failedSymbols := failedSymbols + [keys[i]];
        timedOutSymbols := timedOutSymbols + [keys[i]];
    }
    assert keys[..|keys|] == keys;
    s := Summary(|keys|, closed, failed, timedOut, failedSymbols, timedOutSymbols);
  }

  /** Every position is counted once, and what is not closed is listed; one without a result timed out. */
  lemma {:induction false} SummaryAddsUp(keys: seq<Key>, results: map<Key, Verdict>)
    ensures var s := Summarize(keys, results);
      && s.closed + s.failed + s.timedOut == s.total
      && |s.failedSymbols| == s.failed + s.timedOut
      && |s.timedOutSymbols| == s.timedOut
      && (forall k :: k in s.failedSymbols <==> k in keys && !(k in results && results[k].Closed?))
      && (forall k :: k in s.timedOutSymbols <==> k in keys && (k in results ==> results[k].TimedOut?))
      && s.total == |keys|
  {
    if keys != [] {
      var m := |keys| - 1;
      SummaryAddsUp(keys[..m], results);
      assert keys == keys[..m] + [keys[m]];
    }
  }
}

/** Any number of close runs, their workers, their timeouts and the chain, step by step. */
module CloseProtocol {
  import opened Prelude
  import opened CloseDecisions

  // ----- The world -----

  /** A rejected swap is one whose reply was a retryable error; the chain may still execute it. */
  datatype TxStatus = Pending | Landed | Rejected

  /** A swap sent by a job; its signature is its place in the list of all swaps. */
  datatype Tx = Tx(job: nat, status: TxStatus)

  datatype Pc =
    | AtTop            // about to check the budget, the position and the tombstone
    | Quoting          // the tombstone is written, nothing is sent yet
    | Swapping         // the swap is sent, its reply is awaited
    | Checking         // the reply was ambiguous, its status is asked for
    | Sleeping         // backing off before the next attempt
    | Done(verdict: Verdict)
    | Lost             // the process died

  /** The close of one position by one run. */
  datatype Job = Job(run: RunId, worker: nat, index: nat, key: Key, attempt: nat, pc: Pc,
                     tx: Option<Signature>, fired: seq<Verdict>, recorded: Option<Verdict>)

  /** The workers share the cursor; each is busy while it waits for the close it pulled. */
  datatype Run = Run(keys: seq<Key>, maxRetries: nat, cursor: nat, workers: seq<bool>,
                     deadlineReached: bool, aborted: bool, results: map<Key, Verdict>)

  datatype Entry = Sell(key: Key) | Clear(key: Key)

  datatype World = World(runs: seq<Run>, jobs: seq<Job>, txs: seq<Tx>,
                         memory: map<Key, RunId>, disk: map<Key, RunId>,
                         log: seq<Entry>)

  const Fresh := World([], [], [], map[], map[], [])

  // ----- Steps -----

  datatype Reply =
    | Signed
    | Unsigned
    | Ambiguous
    | Error(message: string)

  datatype Event =
    | Begin(keys: seq<Key>, mode: CloseMode)
    | Abort(run: RunId)
    | Pull(run: RunId, worker: nat)
    | Deadline(run: RunId)
    | Top(job: nat, budgetSpent: bool, open: bool)
    | Decline(job: nat, message: string)
    | Send(job: nat)
    | Land(tx: Signature)
    | Answer(job: nat, reply: Reply)
    | Status(job: nat, confirmed: bool)
    | Wake(job: nat)
    | Timeout(job: nat)
    | Flush
    | Restart(killed: bool)

  predicate JobAt(w: World, job: nat, pc: Pc) {
    job < |w.jobs| && w.jobs[job].pc == pc
  }

  predicate Running(pc: Pc) {
    !pc.Done? && !pc.Lost?
  }

  /** When the code, or the chain, can take a step. */
  predicate Enabled(w: World, e: Event) {
    match e
    case Begin(_, _) => true
    case Abort(r) => r < |w.runs| && w.runs[r].cursor == 0
    case Pull(r, k) => r < |w.runs| && CanPull(w.runs[r], k)
    case Deadline(r) => r < |w.runs|
    case Top(j, _, _) => JobAt(w, j, AtTop)
    case Decline(j, _) => JobAt(w, j, Quoting)
    case Send(j) => JobAt(w, j, Quoting)
    case Land(t) => t < |w.txs| && w.txs[t].status != Landed
    case Answer(j, _) => JobAt(w, j, Swapping) && w.jobs[j].tx.Some? && w.jobs[j].tx.value < |w.txs|
    case Status(j, _) => JobAt(w, j, Checking) && w.jobs[j].tx.Some? && w.jobs[j].tx.value < |w.txs|
    case Wake(j) => JobAt(w, j, Sleeping)
    case Timeout(j) => j < |w.jobs| && Running(w.jobs[j].pc) && w.jobs[j].recorded.None?
    case Flush => true
    case Restart(_) => true
  }

  /** A worker at the top of its loop goes on while positions are left and the deadline is not reached. */
  predicate CanPull(r: Run, worker: nat) {
    worker < |r.workers| && !r.workers[worker] && r.cursor < |r.keys| && !r.deadlineReached && !r.aborted
  }

  /** One worker per position, up to the cap. */
  function NewWorkers(positions: nat): (workers: seq<bool>)
    ensures |workers| <= MAX_PARALLEL_CLOSES && forall k :: 0 <= k < |workers| ==> !workers[k]
  {
    seq(if positions < MAX_PARALLEL_CLOSES then positions else MAX_PARALLEL_CLOSES, k => false)
  }

  function WithWorker(workers: seq<bool>, k: nat, busy: bool): (r: seq<bool>)
    ensures |r| == |workers|
  {
    if k < |workers| then workers[k := busy] else workers
  }

  function WithJob(w: World, j: nat, job: Job): World
    requires j < |w.jobs|
  {
    w.(jobs := w.jobs[j := job])
  }

  /** runClose hears a result before its timeout, or its timeout first. */
  function Record(w: World, j: nat, v: Verdict): World
    requires j < |w.jobs|
  {
    var job := w.jobs[j];
    if job.recorded.Some? || job.run >= |w.runs| then w
    else
      var r := w.runs[job.run];
      WithJob(w, j, job.(recorded := Some(v))).(
        runs := w.runs[job.run := r.(results := r.results[job.key := v],
                                     workers := WithWorker(r.workers, job.worker, false))])
  }

  function Report(w: World, j: nat, v: Verdict): World
    requires j < |w.jobs|
  {
    var job := w.jobs[j];
    WithJob(w, j, job.(fired := Fire(job.fired, v)))
  }

  /** A confirmed close clears the tombstone of its position. */
  function Confirm(w: World, key: Key, v: Verdict): World {
    if v.Closed? then w.(memory := w.memory - {key}, log := w.log + [Clear(key)]) else w
  }

  /** closePosition fires its verdict and returns it. */
  function Finish(w: World, j: nat, v: Verdict): World
    requires j < |w.jobs|
  {
    var job := w.jobs[j];
    Record(Report(Confirm(WithJob(w, j, job.(pc := Done(v))), job.key, v), j, v), j, v)
  }

  /** After an attempt: a verdict, or a wait before the next one. */
  function After(w: World, j: nat, result: AttemptResult): World
    requires j < |w.jobs|
  {
    var job := w.jobs[j];
    var maxRetries := if job.run < |w.runs| then w.runs[job.run].maxRetries else 0;
    var decision := Decide(result, job.attempt, maxRetries);
    if decision.Some? then Finish(w, j, decision.value) else WithJob(w, j, job.(pc := Sleeping))
  }

  function Kill(jobs: seq<Job>): (killed: seq<Job>)
    ensures |killed| == |jobs|
    ensures forall j :: 0 <= j < |jobs| ==> killed[j] == if Running(jobs[j].pc) then jobs[j].(pc := Lost) else jobs[j]
  {
    seq(|jobs|, j requires 0 <= j < |jobs| => if Running(jobs[j].pc) then jobs[j].(pc := Lost) else jobs[j])
  }

  function AllFailed(keys: seq<Key>): map<Key, Verdict> {
    map k | k in keys :: Failed
  }

  /** A retryable answer makes the code take the swap for rejected. */
  function Discarded(w: World, t: Signature): World {
    if t < |w.txs| && w.txs[t].status == Pending then w.(txs := w.txs[t := w.txs[t].(status := Rejected)]) else w
  }

  function NewJob(w: World, r: RunId, worker: nat): Job
    requires Enabled(w, Pull(r, worker))
  {
    Job(r, worker, w.runs[r].cursor, w.runs[r].keys[w.runs[r].cursor], 0, AtTop, None, [], None)
  }

  function AnswerStep(w: World, j: nat, reply: Reply): World
    requires Enabled(w, Answer(j, reply))
  {
    var job := w.jobs[j];
    match reply
    case Signed => After(w, j, Sold(job.tx.value))
    case Unsigned => After(w, j, NotSold(false))
    case Ambiguous => WithJob(w, j, job.(pc := Checking))
    case Error(message) =>
      if IsRetryableError(message) then After(Discarded(w, job.tx.value), j, NotSold(true))
      else After(w, j, NotSold(false))
  }

  function Next(w: World, e: Event): World
    requires Enabled(w, e)
  {
    match e
    case Begin(keys, mode) =>
      w.(runs := w.runs + [Run(keys, MaxRetries(mode), 0, NewWorkers(|keys|), false, false, map[])])
    case Abort(r) => w.(runs := w.runs[r := w.runs[r].(aborted := true, results := AllFailed(w.runs[r].keys))])
    case Pull(r, k) =>
      var run := w.runs[r];
      w.(runs := w.runs[r := run.(cursor := run.cursor + 1, workers := WithWorker(run.workers, k, true))],
         jobs := w.jobs + [NewJob(w, r, k)])
    case Deadline(r) => w.(runs := w.runs[r := w.runs[r].(deadlineReached := true)])
    case Top(j, budgetSpent, open) =>
      var job := w.jobs[j];
      if budgetSpent then Finish(w, j, TimedOut)
      else if !open then Finish(w, j, Failed)
      else if Refused(w.memory, job.key, job.run) then After(w, j, NotSold(false))
      else WithJob(w, j, job.(pc := Quoting)).(memory := w.memory[job.key := job.run])
    case Decline(j, message) => After(w, j, NotSold(IsRetryableError(message)))
    case Send(j) =>
      WithJob(w, j, w.jobs[j].(pc := Swapping, tx := Some(|w.txs|))).(txs := w.txs + [Tx(j, Pending)])
    case Land(t) =>
      var j := w.txs[t].job;
      w.(txs := w.txs[t := w.txs[t].(status := Landed)],
         log := if j < |w.jobs| then w.log + [Sell(w.jobs[j].key)] else w.log)
    case Answer(j, reply) => AnswerStep(w, j, reply)
    case Status(j, confirmed) => After(w, j, if confirmed then Sold(w.jobs[j].tx.value) else NotSold(false))
    case Wake(j) => WithJob(w, j, w.jobs[j].(pc := AtTop, attempt := w.jobs[j].attempt + 1))
    case Timeout(j) => Record(Report(w, j, TimedOut), j, TimedOut)
    case Flush => w.(disk := w.memory)
    case Restart(killed) => w.(memory := w.disk, jobs := if killed then Kill(w.jobs) else w.jobs)
  }

  // ----- What is assumed of the environment -----

  predicate Distinct(keys: seq<Key>) {
    forall i, j :: 0 <= i < j < |keys| ==> keys[i] != keys[j]
  }

  predicate HasLanded(w: World, j: nat) {
    j < |w.jobs| && w.jobs[j].tx.Some? && w.jobs[j].tx.value < |w.txs| && w.txs[w.jobs[j].tx.value].status == Landed
  }

  datatype Assumption =
    | DistinctKeys   // the keys of a snapshot are distinct
    | HonestSuccess  // a signature reported as final is on chain
    | HonestRetry    // an error that declines the request means that the swap neither landed nor ever will
    | SettledDisk    // every tombstone write completes before the next load

  ghost predicate Holds(a: Assumption, w: World, e: Event) {
    match a
    case DistinctKeys => e.Begin? ==> Distinct(e.keys)
    case HonestSuccess =>
      && (e.Answer? && e.reply.Signed? ==> HasLanded(w, e.job))
      && (e.Status? && e.confirmed ==> HasLanded(w, e.job))
    case HonestRetry =>
      && (e.Answer? && e.reply.Error? && Declined(e.reply.message) ==> !HasLanded(w, e.job))
      && (e.Land? && e.tx < |w.txs| ==> w.txs[e.tx].status != Rejected)
    case SettledDisk => e.Restart? ==> w.disk == w.memory
  }

  ghost predicate Assumed(w: World, e: Event) {
    Holds(DistinctKeys, w, e) && Holds(HonestSuccess, w, e) && Holds(HonestRetry, w, e) && Holds(SettledDisk, w, e)
  }

  // ----- Runs of the whole system -----

  /** The world after the events, if each of them was possible in turn. */
  function Play(events: seq<Event>): Option<World> {
    if events == [] then Some(Fresh)
    else
      var before := Play(events[..|events| - 1]);
      var e := events[|events| - 1];
      if before.Some? && Enabled(before.value, e) then Some(Next(before.value, e)) else None
  }

  /** Every event met the assumption when it happened. */
  ghost predicate Always(events: seq<Event>, a: Assumption) {
    events != [] ==>
      var front := events[..|events| - 1];
      Always(front, a) && (Play(front).Some? ==> Holds(a, Play(front).value, events[|events| - 1]))
  }

  ghost predicate AllAssumed(events: seq<Event>) {
    Always(events, DistinctKeys) && Always(events, HonestSuccess) && Always(events, HonestRetry)
      && Always(events, SettledDisk)
  }

  // ----- What the chain saw -----

  /** How many swaps of a position landed since its tombstone was last cleared. */
  function SoldSinceClear(log: seq<Entry>, key: Key): nat {
    if log == [] then 0
    else
      var before := SoldSinceClear(log[..|log| - 1], key);
      match log[|log| - 1]
      case Sell(k) => if k == key then before + 1 else before
      case Clear(k) => if k == key then 0 else before
  }

  function Sells(log: seq<Entry>, key: Key): nat {
    if log == [] then 0 else Sells(log[..|log| - 1], key) + if log[|log| - 1] == Sell(key) then 1 else 0
  }

  function Clears(log: seq<Entry>, key: Key): nat {
    if log == [] then 0 else Clears(log[..|log| - 1], key) + if log[|log| - 1] == Clear(key) then 1 else 0
  }

  lemma Logged(log: seq<Entry>, e: Entry, key: Key)
    ensures SoldSinceClear(log + [e], key)
      == if e == Clear(key) then 0 else SoldSinceClear(log, key) + if e == Sell(key) then 1 else 0
    ensures Sells(log + [e], key) == Sells(log, key) + if e == Sell(key) then 1 else 0
    ensures Clears(log + [e], key) == Clears(log, key) + if e == Clear(key) then 1 else 0
  {
    assert (log + [e])[..|log + [e]| - 1] == log;
  }

  // ----- The shape of runs and jobs -----

  predicate JobShape(w: World, job: Job) {
    job.run < |w.runs| && job.index < w.runs[job.run].cursor <= |w.runs[job.run].keys| &&
    job.key == w.runs[job.run].keys[job.index] && job.attempt <= w.runs[job.run].maxRetries &&
    (job.pc.Sleeping? ==> job.attempt < w.runs[job.run].maxRetries)
  }

  /** Every job closes a place of its run's snapshot that no other job closes. */
  predicate Placed(w: World) {
    && (forall r :: 0 <= r < |w.runs| ==> w.runs[r].cursor <= |w.runs[r].keys|)
    && (forall j :: 0 <= j < |w.jobs| ==> JobShape(w, w.jobs[j]))
    && (forall i, j :: 0 <= i < j < |w.jobs| && w.jobs[i].run == w.jobs[j].run ==> w.jobs[i].index != w.jobs[j].index)
  }

  /** Besides, no snapshot lists a position twice. */
  predicate Shape(w: World) {
    Placed(w) && forall r :: 0 <= r < |w.runs| ==> Distinct(w.runs[r].keys)
  }

  /** One run never works on a position twice. */
  lemma OneJobPerPosition(w: World, i: nat, j: nat)
    requires Shape(w) && i < |w.jobs| && j < |w.jobs|
    requires w.jobs[i].run == w.jobs[j].run && w.jobs[i].key == w.jobs[j].key
    ensures i == j
  {
    assert JobShape(w, w.jobs[i]) && JobShape(w, w.jobs[j]);
  }

  // ----- Who may still sell a position -----

  predicate HoldsTombstone(w: World, j: nat)
    requires j < |w.jobs|
  {
    w.jobs[j].key in w.memory && w.memory[w.jobs[j].key] == w.jobs[j].run
  }

  predicate Sent(pc: Pc) {
    pc.Swapping? || pc.Checking?
  }

  predicate NothingOut(w: World, tx: Option<Signature>) {
    tx.Some? ==> tx.value < |w.txs| && w.txs[tx.value].status == Rejected
  }

  predicate JobCustody(w: World, j: nat)
    requires j < |w.jobs|
  {
    var job := w.jobs[j];
    && (job.pc.Quoting? || Sent(job.pc) ==> HoldsTombstone(w, j))
    && (job.tx.Some? ==> job.tx.value < |w.txs| && w.txs[job.tx.value].job == j)
    && (Sent(job.pc) ==> job.tx.Some?)
    && (job.pc.AtTop? || job.pc.Quoting? || job.pc.Sleeping? ==> NothingOut(w, job.tx))
    && (Sent(job.pc) && HasLanded(w, j) ==> SoldSinceClear(w.log, job.key) == 1)
  }

  /** A swap that was not rejected is its job's last one, and while it is pending its tombstone stands. */
  predicate TxCustody(w: World, t: nat)
    requires t < |w.txs|
  {
    var tx := w.txs[t];
    && tx.job < |w.jobs|
    && (tx.status != Rejected ==> w.jobs[tx.job].tx == Some(t))
    && (tx.status == Pending ==> HoldsTombstone(w, tx.job))
  }

  predicate SoldBy(w: World, key: Key, j: nat) {
    j < |w.jobs| && w.jobs[j].key == key && HoldsTombstone(w, j) && HasLanded(w, j)
  }

  ghost predicate KeyCustody(w: World, key: Key) {
    && (SoldSinceClear(w.log, key) == 0 || (SoldSinceClear(w.log, key) == 1 && exists j :: SoldBy(w, key, j)))
    && Sells(w.log, key) == Clears(w.log, key) + SoldSinceClear(w.log, key)
  }

  ghost predicate Custody(w: World) {
    && (forall j :: 0 <= j < |w.jobs| ==> JobCustody(w, j))
    && (forall t :: 0 <= t < |w.txs| ==> TxCustody(w, t))
    && (forall key :: KeyCustody(w, key))
  }

  // ----- Custody is kept by every step -----

  /** Moves of jobs that neither send, claim nor clear. */
  predicate QuietMove(w: World, job: Job, moved: Job) {
    && moved.run == job.run && moved.key == job.key && moved.tx == job.tx
    && (moved.pc == job.pc || moved.pc.Done? || moved.pc.Lost?
        || ((moved.pc.AtTop? || moved.pc.Sleeping?) && NothingOut(w, job.tx))
        || (moved.pc.Checking? && job.pc.Swapping?))
  }

  predicate Quiet(w: World, moved: World) {
    && moved.txs == w.txs && moved.memory == w.memory && moved.log == w.log
    && |moved.jobs| == |w.jobs|
    && forall j :: 0 <= j < |w.jobs| ==> QuietMove(w, w.jobs[j], moved.jobs[j])
  }

  lemma QuietKeepsCustody(w: World, moved: World)
    requires Custody(w) && Quiet(w, moved)
    ensures Custody(moved)
  {
    hide SoldSinceClear, Sells, Clears;
    forall j | 0 <= j < |moved.jobs|
      ensures JobCustody(moved, j)
    {
      assert JobCustody(w, j) && QuietMove(w, w.jobs[j], moved.jobs[j]);
    }
    forall t | 0 <= t < |moved.txs|
      ensures TxCustody(moved, t)
    {
      assert TxCustody(w, t) && QuietMove(w, w.jobs[w.txs[t].job], moved.jobs[w.txs[t].job]);
    }
    forall key
      ensures KeyCustody(moved, key)
    {
      assert KeyCustody(w, key);
      if SoldSinceClear(w.log, key) == 1 {
        var j: nat :| SoldBy(w, key, j);
        assert QuietMove(w, w.jobs[j], moved.jobs[j]);
        assert SoldBy(moved, key, j);
      }
    }
  }

  lemma PullKeepsCustody(w: World, moved: World, job: Job)
    requires Custody(w) && moved == w.(runs := moved.runs, jobs := w.jobs + [job]) && job.pc == AtTop && job.tx == None
    ensures Custody(moved)
  {
    hide SoldSinceClear, Sells, Clears;
    forall j | 0 <= j < |moved.jobs|
      ensures JobCustody(moved, j)
    {
      assert j < |w.jobs| ==> JobCustody(w, j);
    }
    forall t | 0 <= t < |moved.txs|
      ensures TxCustody(moved, t)
    {
      assert TxCustody(w, t);
    }
    forall key
      ensures KeyCustody(moved, key)
    {
      assert KeyCustody(w, key);
      if SoldSinceClear(w.log, key) == 1 {
        var j: nat :| SoldBy(w, key, j);
        assert SoldBy(moved, key, j);
      }
    }
  }

  /** Writing one's own tombstone where none of another run stands takes nothing from anyone. */
  lemma ClaimKeepsCustody(w: World, j: nat, moved: World)
    requires Custody(w) && JobAt(w, j, AtTop) && !Refused(w.memory, w.jobs[j].key, w.jobs[j].run)
    requires moved == WithJob(w, j, w.jobs[j].(pc := Quoting)).(memory := w.memory[w.jobs[j].key := w.jobs[j].run])
    ensures Custody(moved)
  {
    hide SoldSinceClear, Sells, Clears;
    forall i | 0 <= i < |moved.jobs|
      ensures JobCustody(moved, i)
    {
      assert JobCustody(w, i);
    }
    forall t | 0 <= t < |moved.txs|
      ensures TxCustody(moved, t)
    {
      assert TxCustody(w, t);
    }
    forall key
      ensures KeyCustody(moved, key)
    {
      assert KeyCustody(w, key);
      if SoldSinceClear(w.log, key) == 1 {
        var i: nat :| SoldBy(w, key, i);
        assert SoldBy(moved, key, i);
      }
    }
  }

  lemma SendKeepsCustody(w: World, j: nat, moved: World)
    requires Custody(w) && JobAt(w, j, Quoting)
    requires moved == WithJob(w, j, w.jobs[j].(pc := Swapping, tx := Some(|w.txs|))).(txs := w.txs + [Tx(j, Pending)])
    ensures Custody(moved)
  {
    hide SoldSinceClear, Sells, Clears;
    assert JobCustody(w, j);
    forall i | 0 <= i < |moved.jobs|
      ensures JobCustody(moved, i)
    {
      assert JobCustody(w, i);
    }
    forall t | 0 <= t < |moved.txs|
      ensures TxCustody(moved, t)
    {
      assert t < |w.txs| ==> TxCustody(w, t);
    }
    forall key
      ensures KeyCustody(moved, key)
    {
      assert KeyCustody(w, key);
      if SoldSinceClear(w.log, key) == 1 {
        var i: nat :| SoldBy(w, key, i);
        assert i != j;
        assert SoldBy(moved, key, i);
      }
    }
  }

  /** A swap that lands is the first of its position since the tombstone was cleared. */
  lemma LandKeepsCustody(w: World, t: nat, moved: World)
    requires Shape(w) && Custody(w) && Enabled(w, Land(t)) && Assumed(w, Land(t)) && moved == Next(w, Land(t))
    ensures Custody(moved)
  {
    hide SoldSinceClear, Sells, Clears;
    assert TxCustody(w, t);
    var j := w.txs[t].job;
    var sold := w.jobs[j].key;
    assert JobCustody(w, j) && KeyCustody(w, sold);
    if SoldSinceClear(w.log, sold) == 1 {
      var i: nat :| SoldBy(w, sold, i);
      OneJobPerPosition(w, i, j);
      assert false;
    }
    Logged(w.log, Sell(sold), sold);
    forall i | 0 <= i < |moved.jobs|
      ensures JobCustody(moved, i)
    {
      assert JobCustody(w, i);
      Logged(w.log, Sell(sold), w.jobs[i].key);
    }
    forall u | 0 <= u < |moved.txs|
      ensures TxCustody(moved, u)
    {
      assert TxCustody(w, u);
    }
    forall key
      ensures KeyCustody(moved, key)
    {
      Logged(w.log, Sell(sold), key);
      assert KeyCustody(w, key);
      if key == sold {
        assert SoldBy(moved, key, j);
      } else if SoldSinceClear(w.log, key) == 1 {
        var i: nat :| SoldBy(w, key, i);
        assert SoldBy(moved, key, i);
      }
    }
  }

  lemma DiscardKeepsCustody(w: World, j: nat)
    requires Custody(w) && JobAt(w, j, Swapping)
    ensures w.jobs[j].tx.Some? && Custody(Discarded(w, w.jobs[j].tx.value))
  {
    hide SoldSinceClear, Sells, Clears;
    assert JobCustody(w, j);
    var moved := Discarded(w, w.jobs[j].tx.value);
    forall i | 0 <= i < |moved.jobs|
      ensures JobCustody(moved, i)
    {
      assert JobCustody(w, i);
    }
    forall u | 0 <= u < |moved.txs|
      ensures TxCustody(moved, u)
    {
      assert TxCustody(w, u);
    }
    forall key
      ensures KeyCustody(moved, key)
    {
      assert KeyCustody(w, key);
      if SoldSinceClear(w.log, key) == 1 {
        var i: nat :| SoldBy(w, key, i);
        assert SoldBy(moved, key, i);
      }
    }
  }

  /** Clearing a tombstone for a swap that landed leaves nothing of that position in flight. */
  lemma ConfirmKeepsCustody(w: World, j: nat, v: Verdict)
    requires Shape(w) && Custody(w) && j < |w.jobs| && v.Closed? && Sent(w.jobs[j].pc) && HasLanded(w, j)
    ensures Custody(Confirm(WithJob(w, j, w.jobs[j].(pc := Done(v))), w.jobs[j].key, v))
  {
    hide SoldSinceClear, Sells, Clears;
    var moved := Confirm(WithJob(w, j, w.jobs[j].(pc := Done(v))), w.jobs[j].key, v);
    var sold := w.jobs[j].key;
    assert JobCustody(w, j);
    forall i | 0 <= i < |moved.jobs|
      ensures JobCustody(moved, i)
    {
      assert JobCustody(w, i);
      Logged(w.log, Clear(sold), w.jobs[i].key);
      if w.jobs[i].key == sold && HoldsTombstone(w, i) {
        OneJobPerPosition(w, i, j);
      }
    }
    forall u | 0 <= u < |moved.txs|
      ensures TxCustody(moved, u)
    {
      assert TxCustody(w, u);
      if w.txs[u].status == Pending && w.jobs[w.txs[u].job].key == sold {
        OneJobPerPosition(w, w.txs[u].job, j);
        assert false;
      }
    }
    forall key
      ensures KeyCustody(moved, key)
    {
      Logged(w.log, Clear(sold), key);
      assert KeyCustody(w, key);
      if key != sold && SoldSinceClear(w.log, key) == 1 {
        var i: nat :| SoldBy(w, key, i);
        assert SoldBy(moved, key, i);
      }
    }
  }

  lemma FinishKeepsCustody(w: World, j: nat, v: Verdict)
    requires Shape(w) && Custody(w) && j < |w.jobs|
    requires v.Closed? ==> Sent(w.jobs[j].pc) && HasLanded(w, j)
    ensures Custody(Finish(w, j, v))
  {
    var done := Confirm(WithJob(w, j, w.jobs[j].(pc := Done(v))), w.jobs[j].key, v);
    if v.Closed? {
      ConfirmKeepsCustody(w, j, v);
    } else {
      QuietKeepsCustody(w, done);
    }
    assert Quiet(done, Finish(w, j, v)) by {
      hide Custody, Shape, Confirm, HasLanded;
    }
    QuietKeepsCustody(done, Finish(w, j, v));
  }

  lemma AfterKeepsCustody(w: World, j: nat, result: AttemptResult)
    requires Shape(w) && Custody(w) && j < |w.jobs|
    requires result.Sold? ==> Sent(w.jobs[j].pc) && HasLanded(w, j)
    requires result.NotSold? && result.retryable ==> NothingOut(w, w.jobs[j].tx)
    ensures Custody(After(w, j, result))
  {
    hide Custody, Shape, Finish;
    var job := w.jobs[j];
    var maxRetries := if job.run < |w.runs| then w.runs[job.run].maxRetries else 0;
    var decision := Decide(result, job.attempt, maxRetries);
    if decision.Some? {
      FinishKeepsCustody(w, j, decision.value);
    } else {
      QuietKeepsCustody(w, After(w, j, result));
    }
  }

  lemma AnswerKeepsCustody(w: World, j: nat, reply: Reply)
    requires Shape(w) && Custody(w) && Enabled(w, Answer(j, reply)) && Assumed(w, Answer(j, reply))
    ensures Custody(AnswerStep(w, j, reply))
  {
    hide Custody, Shape, After, IsRetryableError, Declined;
    match reply
    case Signed => AfterKeepsCustody(w, j, Sold(w.jobs[j].tx.value));
    case Unsigned => AfterKeepsCustody(w, j, NotSold(false));
    case Ambiguous => QuietKeepsCustody(w, AnswerStep(w, j, reply));
    case Error(message) =>
      RetryableMeaning(message);
      if IsRetryableError(message) {
        DiscardKeepsCustody(w, j);
        DiscardKeepsShape(w, w.jobs[j].tx.value);
        AfterKeepsCustody(Discarded(w, w.jobs[j].tx.value), j, NotSold(true));
      } else {
        AfterKeepsCustody(w, j, NotSold(false));
      }
  }

  lemma DiscardKeepsShape(w: World, t: Signature)
    requires Shape(w)
    ensures Shape(Discarded(w, t))
  {
  }

  lemma DiscardKeepsPlaced(w: World, t: Signature)
    requires Placed(w)
    ensures Placed(Discarded(w, t))
  {
  }

  lemma TopKeepsCustody(w: World, e: Event)
    requires Shape(w) && Custody(w) && Enabled(w, e) && e.Top?
    ensures Custody(Next(w, e))
  {
    hide Custody, Shape, After, Finish;
    var j := e.job;
    if e.budgetSpent {
      FinishKeepsCustody(w, j, TimedOut);
    } else if !e.open {
      FinishKeepsCustody(w, j, Failed);
    } else if Refused(w.memory, w.jobs[j].key, w.jobs[j].run) {
      AfterKeepsCustody(w, j, NotSold(false));
    } else {
      ClaimKeepsCustody(w, j, Next(w, e));
    }
  }

  /** Events that move no swap and no tombstone. */
  predicate IsQuiet(e: Event) {
    e.Begin? || e.Abort? || e.Deadline? || e.Wake? || e.Timeout? || e.Flush? || e.Restart?
  }

  lemma QuietEvents(w: World, e: Event)
    requires Custody(w) && Enabled(w, e) && Assumed(w, e) && IsQuiet(e)
    ensures Quiet(w, Next(w, e))
  {
    hide SoldSinceClear, KeyCustody, TxCustody, AllFailed;
    if e.Wake? {
      assert JobCustody(w, e.job);
    }
  }

  lemma NextKeepsCustody(w: World, e: Event)
    requires Shape(w) && Custody(w) && Enabled(w, e) && Assumed(w, e)
    ensures Custody(Next(w, e))
  {
    hide Shape, After, Finish, IsRetryableError, Record, Report, Quiet;
    if IsQuiet(e) {
      QuietEvents(w, e);
      QuietKeepsCustody(w, Next(w, e));
    } else {
      MovingKeepsCustody(w, e);
    }
    hide Next, Custody;
  }

  lemma MovingKeepsCustody(w: World, e: Event)
    requires Shape(w) && Custody(w) && Enabled(w, e) && Assumed(w, e) && !IsQuiet(e)
    ensures Custody(Next(w, e))
  {
    hide Shape, After, Finish, IsRetryableError;
    match e
    case Pull(r, k) => PullKeepsCustody(w, Next(w, e), NewJob(w, r, k));
    case Top(_, _, _) => TopKeepsCustody(w, e);
    case Decline(j, message) =>
      assert JobCustody(w, j);
      AfterKeepsCustody(w, j, NotSold(IsRetryableError(message)));
    case Send(j) => SendKeepsCustody(w, j, Next(w, e));
    case Land(t) => LandKeepsCustody(w, t, Next(w, e));
    case Answer(j, reply) => AnswerKeepsCustody(w, j, reply);
    case Status(j, confirmed) =>
      AfterKeepsCustody(w, j, if confirmed then Sold(w.jobs[j].tx.value) else NotSold(false));
    hide Custody, JobCustody;
  }

  // ----- Shape is kept by every step -----

  /** Runs and jobs keep what their shape is about. */
  predicate SameShape(w: World, moved: World) {
    && |moved.runs| == |w.runs| && |moved.jobs| == |w.jobs|
    && (forall r :: 0 <= r < |w.runs| ==>
          moved.runs[r].keys == w.runs[r].keys && moved.runs[r].maxRetries == w.runs[r].maxRetries
          && moved.runs[r].cursor == w.runs[r].cursor)
    && (forall j :: 0 <= j < |w.jobs| ==>
          moved.jobs[j].run == w.jobs[j].run && moved.jobs[j].index == w.jobs[j].index
            && moved.jobs[j].key == w.jobs[j].key
          && AttemptsKept(w, w.jobs[j], moved.jobs[j]))
  }

  predicate AttemptsKept(w: World, job: Job, moved: Job) {
    job.run < |w.runs| ==>
      && (moved.attempt == job.attempt || (job.pc.Sleeping? && moved.attempt == job.attempt + 1))
      && (moved.pc.Sleeping? ==>
           moved.attempt == job.attempt && (job.pc.Sleeping? || job.attempt != w.runs[job.run].maxRetries))
  }

  lemma SameShapeKeepsPlaced(w: World, moved: World)
    requires Placed(w) && SameShape(w, moved)
    ensures Placed(moved)
  {
  }

  lemma SameShapeKeepsShape(w: World, moved: World)
    requires Shape(w) && SameShape(w, moved)
    ensures Shape(moved)
  {
    SameShapeKeepsPlaced(w, moved);
    hide Placed;
  }

  lemma FinishSameShape(w: World, j: nat, v: Verdict)
    requires j < |w.jobs|
    ensures SameShape(w, Finish(w, j, v))
  {
  }

  lemma AfterSameShape(w: World, j: nat, result: AttemptResult)
    requires j < |w.jobs|
    ensures SameShape(w, After(w, j, result))
  {
    hide Finish;
    var job := w.jobs[j];
    var maxRetries := if job.run < |w.runs| then w.runs[job.run].maxRetries else 0;
    var decision := Decide(result, job.attempt, maxRetries);
    if decision.Some? {
      FinishSameShape(w, j, decision.value);
    }
  }

  lemma PullKeepsPlaced(w: World, r: RunId, k: nat)
    requires Placed(w) && Enabled(w, Pull(r, k))
    ensures Placed(Next(w, Pull(r, k)))
  {
    var moved := Next(w, Pull(r, k));
    forall j | 0 <= j < |moved.jobs|
      ensures JobShape(moved, moved.jobs[j])
    {
      assert j < |w.jobs| ==> JobShape(w, w.jobs[j]);
    }
    forall i, j | 0 <= i < j < |moved.jobs| && moved.jobs[i].run == moved.jobs[j].run
      ensures moved.jobs[i].index != moved.jobs[j].index
    {
      assert JobShape(w, w.jobs[i]);
    }
  }

  lemma BeginKeepsPlaced(w: World, keys: seq<Key>, mode: CloseMode)
    requires Placed(w)
    ensures Placed(Next(w, Begin(keys, mode)))
  {
  }

  lemma AnswerSameShape(w: World, j: nat, reply: Reply)
    requires Enabled(w, Answer(j, reply))
    ensures SameShape(w, AnswerStep(w, j, reply))
  {
    hide After, IsRetryableError;
    match reply
    case Signed => AfterSameShape(w, j, Sold(w.jobs[j].tx.value));
    case Unsigned => AfterSameShape(w, j, NotSold(false));
    case Ambiguous =>
    case Error(message) =>
      if IsRetryableError(message) {
        AfterSameShape(Discarded(w, w.jobs[j].tx.value), j, NotSold(true));
      } else {
        AfterSameShape(w, j, NotSold(false));
      }
  }

  lemma TopSameShape(w: World, e: Event)
    requires Enabled(w, e) && e.Top?
    ensures SameShape(w, Next(w, e))
  {
    hide After, Finish;
    var j := e.job;
    if e.budgetSpent {
      FinishSameShape(w, j, TimedOut);
    } else if !e.open {
      FinishSameShape(w, j, Failed);
    } else if Refused(w.memory, w.jobs[j].key, w.jobs[j].run) {
      AfterSameShape(w, j, NotSold(false));
    }
  }

  lemma NextKeepsPlaced(w: World, e: Event)
    requires Placed(w) && Enabled(w, e)
    ensures Placed(Next(w, e))
  {
    if e.Begin? {
      BeginKeepsPlaced(w, e.keys, e.mode);
    } else if e.Pull? {
      PullKeepsPlaced(w, e.run, e.worker);
    } else {
      OtherSameShape(w, e);
      SameShapeKeepsPlaced(w, Next(w, e));
    }
    hide Placed, SameShape, Next;
  }

  lemma NextKeepsShape(w: World, e: Event)
    requires Shape(w) && Enabled(w, e) && Holds(DistinctKeys, w, e)
    ensures Shape(Next(w, e))
  {
    NextKeepsPlaced(w, e);
    hide Placed;
    if !e.Begin? && !e.Pull? {
      OtherSameShape(w, e);
      hide Next;
    }
  }

  lemma OtherSameShape(w: World, e: Event)
    requires Enabled(w, e) && !e.Begin? && !e.Pull?
    ensures SameShape(w, Next(w, e))
  {
    hide After, Finish, IsRetryableError, SameShape;
    match e
    case Top(_, _, _) => TopSameShape(w, e);
    case Decline(j, message) => AfterSameShape(w, j, NotSold(IsRetryableError(message)));
    case Answer(j, reply) => AnswerSameShape(w, j, reply);
    case Status(j, confirmed) => AfterSameShape(w, j, if confirmed then Sold(w.jobs[j].tx.value) else NotSold(false));
    case Timeout(j) => RecordSameShape(w, j);
    case _ => SimpleSameShape(w, e);
  }

  lemma RecordSameShape(w: World, j: nat)
    requires j < |w.jobs|
    ensures SameShape(w, Record(Report(w, j, TimedOut), j, TimedOut))
  {
  }

  lemma SimpleSameShape(w: World, e: Event)
    requires Enabled(w, e) && (RecordsNothing(e) || e.Abort?)
    ensures SameShape(w, Next(w, e))
  {
    hide AllFailed;
  }

  lemma {:induction false} PlayKeepsPlaced(events: seq<Event>)
    requires Play(events).Some?
    ensures Placed(Play(events).value)
  {
    if events != [] {
      var front := events[..|events| - 1];
      PlayKeepsPlaced(front);
      NextKeepsPlaced(Play(front).value, events[|events| - 1]);
    }
    hide Next, Enabled, Placed;
  }

  lemma {:induction false} PlayKeepsShape(events: seq<Event>)
    requires Play(events).Some? && Always(events, DistinctKeys)
    ensures Shape(Play(events).value)
  {
    if events != [] {
      var front := events[..|events| - 1];
      PlayKeepsShape(front);
      NextKeepsShape(Play(front).value, events[|events| - 1]);
    }
    hide Next, Enabled, Shape, Holds;
  }

  // ----- Safety over every run -----

  lemma {:induction false} PlayKeepsCustody(events: seq<Event>)
    requires Play(events).Some? && AllAssumed(events)
    ensures Shape(Play(events).value) && Custody(Play(events).value)
  {
    if events != [] {
      var front := events[..|events| - 1];
      PlayKeepsCustody(front);
      NextKeepsShape(Play(front).value, events[|events| - 1]);
      NextKeepsCustody(Play(front).value, events[|events| - 1]);
    }
    hide Next, Enabled, Assumed;
  }

  /**
   * No position is sold twice: whatever runs, workers, timeouts, late answers and restarts there were,
   * at most one swap of a position landed since its tombstone was last cleared, and every clear was paid for by one.
   */
  lemma NoPositionIsSoldTwice(events: seq<Event>, key: Key)
    requires Play(events).Some? && AllAssumed(events)
    ensures var log := Play(events).value.log;
      SoldSinceClear(log, key) <= 1 && Sells(log, key) == Clears(log, key) + SoldSinceClear(log, key)
  {
    PlayKeepsCustody(events);
    assert KeyCustody(Play(events).value, key);
    hide *;
  }

  /** Of all the swaps one job sent, all but at most one were rejected. */
  lemma OneSwapPerJob(events: seq<Event>, t: Signature, u: Signature)
    requires Play(events).Some? && AllAssumed(events)
    requires var txs := Play(events).value.txs;
      t < |txs| && u < |txs| && txs[t].job == txs[u].job && txs[t].status != Rejected && txs[u].status != Rejected
    ensures t == u
  {
    PlayKeepsCustody(events);
    var w := Play(events).value;
    assert TxCustody(w, t) && TxCustody(w, u);
  }

  // ----- Which verdicts fire -----

  /** The verdicts that may have fired for a position: none, one, or a timeout and then a confirmed close. */
  predicate ReportShape(fired: seq<Verdict>) {
    || fired == []
    || (|fired| == 1)
    || (|fired| == 2 && fired[0].TimedOut? && fired[1].Closed?)
  }

  predicate JobVerdicts(job: Job) {
    match job.pc
    case Done(v) =>
      && ((job.recorded == Some(v) && job.fired == [v])
          || (job.recorded == Some(TimedOut) && job.fired == if v.Closed? then [TimedOut, v] else [TimedOut]))
      && (v.Closed? ==> job.tx == Some(v.signature))
    case _ =>
      || (job.recorded == None && job.fired == [])
      || (job.recorded == Some(TimedOut) && job.fired == [TimedOut])
  }

  predicate Verdicts(w: World) {
    forall j :: 0 <= j < |w.jobs| ==> JobVerdicts(w.jobs[j])
  }

  /** Only job j changed. */
  predicate OnlyJob(w: World, moved: World, j: nat) {
    && |moved.jobs| == |w.jobs| && j < |w.jobs|
    && (forall i :: 0 <= i < |w.jobs| && i != j ==> moved.jobs[i] == w.jobs[i])
  }

  lemma OnlyJobKeepsVerdicts(w: World, moved: World, j: nat)
    requires Verdicts(w) && OnlyJob(w, moved, j) && JobVerdicts(moved.jobs[j])
    ensures Verdicts(moved)
  {
  }

  lemma FinishKeepsVerdicts(w: World, j: nat, v: Verdict)
    requires Placed(w) && Verdicts(w) && j < |w.jobs| && Running(w.jobs[j].pc)
    requires v.Closed? ==> w.jobs[j].tx == Some(v.signature)
    ensures Verdicts(Finish(w, j, v))
  {
    assert JobVerdicts(w.jobs[j]) && JobShape(w, w.jobs[j]);
    var moved := Finish(w, j, v);
    assert OnlyJob(w, moved, j);
    assert JobVerdicts(moved.jobs[j]);
    OnlyJobKeepsVerdicts(w, moved, j);
  }

  lemma AfterKeepsVerdicts(w: World, j: nat, result: AttemptResult)
    requires Placed(w) && Verdicts(w) && j < |w.jobs| && Running(w.jobs[j].pc)
    requires result.Sold? ==> w.jobs[j].tx == Some(result.signature)
    ensures Verdicts(After(w, j, result))
  {
    hide Finish, Placed;
    var job := w.jobs[j];
    var maxRetries := if job.run < |w.runs| then w.runs[job.run].maxRetries else 0;
    var decision := Decide(result, job.attempt, maxRetries);
    if decision.Some? {
      FinishKeepsVerdicts(w, j, decision.value);
    } else {
      assert JobVerdicts(w.jobs[j]);
      OnlyJobKeepsVerdicts(w, After(w, j, result), j);
    }
  }

  lemma AnswerKeepsVerdicts(w: World, j: nat, reply: Reply)
    requires Placed(w) && Verdicts(w) && Enabled(w, Answer(j, reply))
    ensures Verdicts(AnswerStep(w, j, reply))
  {
    hide After, Placed, IsRetryableError;
    match reply
    case Signed => AfterKeepsVerdicts(w, j, Sold(w.jobs[j].tx.value));
    case Unsigned => AfterKeepsVerdicts(w, j, NotSold(false));
    case Ambiguous =>
      assert JobVerdicts(w.jobs[j]);
      OnlyJobKeepsVerdicts(w, AnswerStep(w, j, reply), j);
    case Error(message) =>
      if IsRetryableError(message) {
        var discarded := Discarded(w, w.jobs[j].tx.value);
        assert JobVerdicts(w.jobs[j]);
        OnlyJobKeepsVerdicts(w, discarded, j);
        DiscardKeepsPlaced(w, w.jobs[j].tx.value);
        AfterKeepsVerdicts(discarded, j, NotSold(true));
      } else {
        AfterKeepsVerdicts(w, j, NotSold(false));
      }
  }

  lemma TopKeepsVerdicts(w: World, e: Event)
    requires Placed(w) && Verdicts(w) && Enabled(w, e) && e.Top?
    ensures Verdicts(Next(w, e))
  {
    hide After, Finish, Placed;
    var j := e.job;
    if e.budgetSpent {
      FinishKeepsVerdicts(w, j, TimedOut);
    } else if !e.open {
      FinishKeepsVerdicts(w, j, Failed);
    } else if Refused(w.memory, w.jobs[j].key, w.jobs[j].run) {
      AfterKeepsVerdicts(w, j, NotSold(false));
    } else {
      assert JobVerdicts(w.jobs[j]);
      OnlyJobKeepsVerdicts(w, Next(w, e), j);
    }
  }

  /** Steps that leave every job, or only lose it. */
  lemma IdleKeepsVerdicts(w: World, moved: World)
    requires Verdicts(w) && |w.jobs| <= |moved.jobs|
    requires forall j :: 0 <= j < |w.jobs| ==>
      moved.jobs[j] == w.jobs[j] || (moved.jobs[j] == w.jobs[j].(pc := Lost) && Running(w.jobs[j].pc))
    requires forall j :: |w.jobs| <= j < |moved.jobs| ==>
      moved.jobs[j].pc == AtTop && moved.jobs[j].recorded == None && moved.jobs[j].fired == []
    ensures Verdicts(moved)
  {
  }

  lemma TimeoutKeepsVerdicts(w: World, j: nat)
    requires Placed(w) && Verdicts(w) && Enabled(w, Timeout(j))
    ensures Verdicts(Next(w, Timeout(j)))
  {
    var moved := Next(w, Timeout(j));
    assert JobVerdicts(w.jobs[j]) && JobShape(w, w.jobs[j]);
    assert OnlyJob(w, moved, j);
    assert JobVerdicts(moved.jobs[j]);
    OnlyJobKeepsVerdicts(w, moved, j);
  }

  /** Events that leave every job as it is, or only lose it, or start a new one. */
  predicate LeavesJobs(e: Event) {
    e.Begin? || e.Abort? || e.Pull? || e.Deadline? || e.Land? || e.Flush? || e.Restart?
  }

  lemma IdleEvents(w: World, e: Event)
    requires Verdicts(w) && Enabled(w, e) && LeavesJobs(e)
    ensures Verdicts(Next(w, e))
  {
    IdleKeepsVerdicts(w, Next(w, e));
    hide Verdicts, AllFailed;
  }

  lemma NextKeepsVerdicts(w: World, e: Event)
    requires Placed(w) && Verdicts(w) && Enabled(w, e)
    ensures Verdicts(Next(w, e))
  {
    if LeavesJobs(e) {
      IdleEvents(w, e);
    } else {
      JobKeepsVerdicts(w, e);
    }
    hide *;
  }

  lemma JobKeepsVerdicts(w: World, e: Event)
    requires Placed(w) && Verdicts(w) && Enabled(w, e) && !LeavesJobs(e)
    ensures Verdicts(Next(w, e))
  {
    hide Placed, After, Finish, IsRetryableError, Record, Report;
    match e
    case Top(_, _, _) => TopKeepsVerdicts(w, e);
    case Decline(j, message) => AfterKeepsVerdicts(w, j, NotSold(IsRetryableError(message)));
    case Send(j) =>
      assert JobVerdicts(w.jobs[j]);
      OnlyJobKeepsVerdicts(w, Next(w, e), j);
    case Answer(j, reply) => AnswerKeepsVerdicts(w, j, reply);
    case Status(j, confirmed) =>
      AfterKeepsVerdicts(w, j, if confirmed then Sold(w.jobs[j].tx.value) else NotSold(false));
    case Wake(j) =>
      assert JobVerdicts(w.jobs[j]);
      OnlyJobKeepsVerdicts(w, Next(w, e), j);
    case Timeout(j) => TimeoutKeepsVerdicts(w, j);
    hide Verdicts;
  }

  lemma {:induction false} PlayKeepsVerdicts(events: seq<Event>)
    requires Play(events).Some?
    ensures Verdicts(Play(events).value)
  {
    if events != [] {
      var front := events[..|events| - 1];
      PlayKeepsVerdicts(front);
      PlayKeepsPlaced(front);
      NextKeepsVerdicts(Play(front).value, events[|events| - 1]);
    }
    hide Next, Enabled, Placed;
  }

  /**
   * Whatever the surroundings do, the verdicts fired for a position in one run are none, one verdict, or a timeout and
   * then a confirmed close, and a confirmed close names the last swap that this very job sent.
   */
  lemma VerdictsOfAPosition(events: seq<Event>, j: nat)
    requires Play(events).Some? && j < |Play(events).value.jobs|
    ensures var w := Play(events).value; var job := w.jobs[j];
      && ReportShape(job.fired)
      && (job.pc.Done? ==> job.fired != [] && (job.pc.verdict in job.fired || job.fired == [TimedOut]))
      && job.recorded == (if job.fired == [] then None else Some(job.fired[0]))
      && forall v :: v in job.fired && v.Closed? ==>
           job.tx == Some(v.signature) && v.signature < |w.txs| && w.txs[v.signature].job == j
  {
    PlayKeepsVerdicts(events);
    PlayKeepsSwaps(events);
    var w := Play(events).value;
    assert JobVerdicts(w.jobs[j]) && OwnSwap(w, j);
    hide Play, Verdicts;
  }

  // ----- Whose word a confirmed close is -----

  /** The last swap of a job is its own. */
  predicate OwnSwap(w: World, j: nat)
    requires j < |w.jobs|
  {
    var tx := w.jobs[j].tx;
    tx.Some? ==> tx.value < |w.txs| && w.txs[tx.value].job == j
  }

  predicate OwnSwaps(w: World) {
    forall j :: 0 <= j < |w.jobs| ==> OwnSwap(w, j)
  }

  /** Jobs and swaps only grow, swaps keep their jobs, and landed swaps stay landed. */
  predicate Grown(w: World, moved: World) {
    && |w.jobs| <= |moved.jobs| && |w.txs| <= |moved.txs|
    && forall t :: 0 <= t < |w.txs| ==>
         moved.txs[t].job == w.txs[t].job && (w.txs[t].status == Landed ==> moved.txs[t].status == Landed)
  }

  /** Neither swaps nor which swap is a job's last changed. */
  predicate SameSwaps(w: World, moved: World) {
    && moved.txs == w.txs && |moved.jobs| == |w.jobs|
    && forall j :: 0 <= j < |w.jobs| ==> moved.jobs[j].tx == w.jobs[j].tx
  }

  lemma RecordKeepsSwaps(w: World, j: nat, v: Verdict)
    requires j < |w.jobs|
    ensures SameSwaps(w, Record(Report(w, j, v), j, v))
  {
  }

  lemma FinishKeepsSwaps(w: World, j: nat, v: Verdict)
    requires j < |w.jobs|
    ensures SameSwaps(w, Finish(w, j, v))
  {
    RecordKeepsSwaps(Confirm(WithJob(w, j, w.jobs[j].(pc := Done(v))), w.jobs[j].key, v), j, v);
    hide Record, Report;
  }

  lemma AfterKeepsSwaps(w: World, j: nat, result: AttemptResult)
    requires j < |w.jobs|
    ensures SameSwaps(w, After(w, j, result))
  {
    hide Finish;
    FinishKeepsSwaps(w, j, Failed);
    if result.Sold? {
      FinishKeepsSwaps(w, j, Closed(result.signature));
    }
  }

  lemma SameSwapsKept(w: World, moved: World)
    requires OwnSwaps(w) && SameSwaps(w, moved)
    ensures OwnSwaps(moved) && Grown(w, moved)
  {
    forall j | 0 <= j < |moved.jobs|
      ensures OwnSwap(moved, j)
    {
      assert OwnSwap(w, j);
    }
  }

  lemma AfterKeepsOwn(w: World, j: nat, result: AttemptResult)
    requires OwnSwaps(w) && j < |w.jobs|
    ensures OwnSwaps(After(w, j, result)) && Grown(w, After(w, j, result))
  {
    AfterKeepsSwaps(w, j, result);
    SameSwapsKept(w, After(w, j, result));
    hide After, OwnSwaps, SameSwaps;
  }

  lemma FinishKeepsOwn(w: World, j: nat, v: Verdict)
    requires OwnSwaps(w) && j < |w.jobs|
    ensures OwnSwaps(Finish(w, j, v)) && Grown(w, Finish(w, j, v))
  {
    FinishKeepsSwaps(w, j, v);
    SameSwapsKept(w, Finish(w, j, v));
    hide Finish, OwnSwaps, SameSwaps;
  }

  lemma SendKeepsOwn(w: World, j: nat)
    requires OwnSwaps(w) && Enabled(w, Send(j))
    ensures OwnSwaps(Next(w, Send(j))) && Grown(w, Next(w, Send(j)))
  {
    var moved := Next(w, Send(j));
    forall i | 0 <= i < |moved.jobs|
      ensures OwnSwap(moved, i)
    {
      assert OwnSwap(w, i);
    }
  }

  /** Events that change neither attempts nor verdicts of jobs that exist. */
  lemma OthersKeepOwn(w: World, e: Event)
    requires OwnSwaps(w) && Enabled(w, e) && (RecordsNothing(e) || e.Begin? || e.Abort? || e.Pull?) && !e.Send?
    ensures OwnSwaps(Next(w, e)) && Grown(w, Next(w, e))
  {
    var moved := Next(w, e);
    forall i | 0 <= i < |moved.jobs|
      ensures OwnSwap(moved, i)
    {
      assert i < |w.jobs| ==> OwnSwap(w, i);
    }
  }

  lemma AnswerKeepsOwn(w: World, j: nat, reply: Reply)
    requires OwnSwaps(w) && Enabled(w, Answer(j, reply))
    ensures OwnSwaps(AnswerStep(w, j, reply)) && Grown(w, AnswerStep(w, j, reply))
  {
    hide IsRetryableError, After;
    match reply
    case Signed => AfterKeepsOwn(w, j, Sold(w.jobs[j].tx.value));
    case Unsigned => AfterKeepsOwn(w, j, NotSold(false));
    case Ambiguous => SameSwapsKept(w, AnswerStep(w, j, reply));
    case Error(message) =>
      if IsRetryableError(message) {
        DiscardKeepsOwn(w, w.jobs[j].tx.value);
        AfterKeepsOwn(Discarded(w, w.jobs[j].tx.value), j, NotSold(true));
      } else {
        AfterKeepsOwn(w, j, NotSold(false));
      }
  }

  lemma DiscardKeepsOwn(w: World, t: Signature)
    requires OwnSwaps(w)
    ensures OwnSwaps(Discarded(w, t)) && Grown(w, Discarded(w, t)) && |Discarded(w, t).jobs| == |w.jobs|
  {
    forall j | 0 <= j < |w.jobs|
      ensures OwnSwap(Discarded(w, t), j)
    {
      assert OwnSwap(w, j);
    }
  }

  lemma TopKeepsOwn(w: World, e: Event)
    requires OwnSwaps(w) && Enabled(w, e) && e.Top?
    ensures OwnSwaps(Next(w, e)) && Grown(w, Next(w, e))
  {
    hide After, Finish;
    if e.budgetSpent {
      FinishKeepsOwn(w, e.job, TimedOut);
    } else if !e.open {
      FinishKeepsOwn(w, e.job, Failed);
    } else if Refused(w.memory, w.jobs[e.job].key, w.jobs[e.job].run) {
      AfterKeepsOwn(w, e.job, NotSold(false));
    } else {
      SameSwapsKept(w, Next(w, e));
    }
  }

  lemma NextKeepsSwaps(w: World, e: Event)
    requires OwnSwaps(w) && Enabled(w, e)
    ensures OwnSwaps(Next(w, e)) && Grown(w, Next(w, e))
  {
    hide IsRetryableError, After, Finish, Record, Report, OwnSwaps, Grown, SameSwaps, AllFailed;
    match e
    case Top(_, _, _) => TopKeepsOwn(w, e);
    case Decline(j, message) => AfterKeepsOwn(w, j, NotSold(IsRetryableError(message)));
    case Send(j) => SendKeepsOwn(w, j);
    case Answer(j, reply) => AnswerKeepsOwn(w, j, reply);
    case Status(j, confirmed) =>
      AfterKeepsOwn(w, j, if confirmed then Sold(w.jobs[j].tx.value) else NotSold(false));
    case Timeout(j) =>
      RecordKeepsSwaps(w, j, TimedOut);
      SameSwapsKept(w, Next(w, e));
    case _ => OthersKeepOwn(w, e);
  }

  lemma {:induction false} PlayKeepsSwaps(events: seq<Event>)
    requires Play(events).Some?
    ensures OwnSwaps(Play(events).value)
  {
    if events != [] {
      var front := events[..|events| - 1];
      PlayKeepsSwaps(front);
      NextKeepsSwaps(Play(front).value, events[|events| - 1]);
    }
    hide Next, Enabled, OwnSwaps, Grown;
  }

  lemma {:induction false} PlayGrows(events: seq<Event>, k: nat)
    requires Play(events).Some? && k <= |events|
    ensures Play(events[..k]).Some? && Grown(Play(events[..k]).value, Play(events).value)
  {
    if k == |events| {
      assert events[..k] == events;
    } else {
      var front := events[..|events| - 1];
      assert front[..k] == events[..k];
      PlayGrows(front, k);
      PlayKeepsSwaps(front);
      NextKeepsSwaps(Play(front).value, events[|events| - 1]);
    }
    hide Next, Enabled, OwnSwaps;
  }

  /** The reply, or the status check, that vouches for the last swap of job j. */
  predicate Vouches(w: World, e: Event, j: nat, signature: Signature) {
    (e == Answer(j, Signed) || e == Status(j, true)) && j < |w.jobs| && w.jobs[j].tx == Some(signature)
  }

  predicate VouchedAt(events: seq<Event>, k: nat, j: nat, signature: Signature) {
    k < |events| && Play(events[..k]).Some? && Vouches(Play(events[..k]).value, events[k], j, signature)
  }

  predicate FiredClosed(w: World, j: nat, signature: Signature) {
    j < |w.jobs| && Closed(signature) in w.jobs[j].fired
  }

  lemma RecordFires(w: World, i: nat, v: Verdict, j: nat, signature: Signature)
    requires i < |w.jobs|
    ensures FiredClosed(Record(Report(w, i, v), i, v), j, signature)
      <==> FiredClosed(w, j, signature) || (i == j && v == Closed(signature))
  {
  }

  lemma FinishFires(w: World, i: nat, v: Verdict, j: nat, signature: Signature)
    requires i < |w.jobs|
    ensures FiredClosed(Finish(w, i, v), j, signature)
      <==> FiredClosed(w, j, signature) || (i == j && v == Closed(signature))
  {
    RecordFires(Confirm(WithJob(w, i, w.jobs[i].(pc := Done(v))), w.jobs[i].key, v), i, v, j, signature);
    hide Record, Report;
  }

  lemma AfterFires(w: World, i: nat, result: AttemptResult, j: nat, signature: Signature)
    requires i < |w.jobs|
    ensures FiredClosed(After(w, i, result), j, signature)
      <==> FiredClosed(w, j, signature) || (i == j && result == Sold(signature))
  {
    hide Finish;
    FinishFires(w, i, Failed, j, signature);
    if result.Sold? {
      FinishFires(w, i, Closed(result.signature), j, signature);
    }
  }

  lemma TopFires(w: World, e: Event, j: nat, signature: Signature)
    requires Enabled(w, e) && e.Top?
    ensures FiredClosed(Next(w, e), j, signature) <==> FiredClosed(w, j, signature)
  {
    hide After, Finish;
    if e.budgetSpent {
      FinishFires(w, e.job, TimedOut, j, signature);
    } else if !e.open {
      FinishFires(w, e.job, Failed, j, signature);
    } else if Refused(w.memory, w.jobs[e.job].key, w.jobs[e.job].run) {
      AfterFires(w, e.job, NotSold(false), j, signature);
    }
  }

  lemma OthersFireNothing(w: World, e: Event, j: nat, signature: Signature)
    requires Enabled(w, e) && (RecordsNothing(e) || e.Begin? || e.Abort? || e.Pull?)
    ensures FiredClosed(Next(w, e), j, signature) <==> FiredClosed(w, j, signature)
  {
    hide AllFailed, WithWorker, NewWorkers;
  }

  lemma NextFires(w: World, e: Event, j: nat, signature: Signature)
    requires Enabled(w, e)
    ensures FiredClosed(Next(w, e), j, signature) <==> FiredClosed(w, j, signature) || Vouches(w, e, j, signature)
  {
    hide IsRetryableError, After, Finish, Record, Report, FiredClosed, AllFailed, WithWorker, NewWorkers;
    match e
    case Top(_, _, _) => TopFires(w, e, j, signature);
    case Decline(i, message) => AfterFires(w, i, NotSold(IsRetryableError(message)), j, signature);
    case Answer(i, reply) => AnswerFires(w, i, reply, j, signature);
    case Status(i, confirmed) =>
      AfterFires(w, i, if confirmed then Sold(w.jobs[i].tx.value) else NotSold(false), j, signature);
    case Timeout(i) => RecordFires(w, i, TimedOut, j, signature);
    case _ => OthersFireNothing(w, e, j, signature);
  }

  lemma AnswerFires(w: World, i: nat, reply: Reply, j: nat, signature: Signature)
    requires Enabled(w, Answer(i, reply))
    ensures FiredClosed(AnswerStep(w, i, reply), j, signature)
      <==> FiredClosed(w, j, signature) || Vouches(w, Answer(i, reply), j, signature)
  {
    hide IsRetryableError, After;
    AfterFires(w, i, Sold(w.jobs[i].tx.value), j, signature);
    AfterFires(w, i, NotSold(false), j, signature);
    AfterFires(Discarded(w, w.jobs[i].tx.value), i, NotSold(true), j, signature);
  }

  ghost predicate Vouched(events: seq<Event>, j: nat, signature: Signature) {
    exists k :: VouchedAt(events, k, j, signature)
  }

  lemma VouchedMore(events: seq<Event>, j: nat, signature: Signature)
    requires events != []
    requires var front := events[..|events| - 1]; Play(front).Some?
    ensures var front := events[..|events| - 1];
      Vouched(events, j, signature)
      <==> Vouched(front, j, signature) || Vouches(Play(front).value, events[|events| - 1], j, signature)
  {
    hide Play, Vouches;
    var last := |events| - 1;
    var front := events[..last];
    if k: nat :| VouchedAt(front, k, j, signature) {
      assert front[..k] == events[..k];
      assert VouchedAt(events, k, j, signature);
    }
    if Vouches(Play(front).value, events[last], j, signature) {
      assert VouchedAt(events, last, j, signature);
    }
    if k: nat :| VouchedAt(events, k, j, signature) && k < last {
      assert front[..k] == events[..k];
      assert VouchedAt(front, k, j, signature);
    }
  }

  /**
   * A confirmed close fires for a position exactly when the swap it names was the last of that very job at some moment,
   * and was then answered as signed or confirmed by a status check.
   */
  lemma {:induction false} ClosedIsVouchedFor(events: seq<Event>, j: nat, signature: Signature)
    requires Play(events).Some?
    ensures FiredClosed(Play(events).value, j, signature) <==> Vouched(events, j, signature)
  {
    hide Next, Enabled, FiredClosed, Vouches;
    if events == [] {
      NothingFired(j, signature);
    } else {
      var front := events[..|events| - 1];
      ClosedIsVouchedFor(front, j, signature);
      NextFires(Play(front).value, events[|events| - 1], j, signature);
      VouchedMore(events, j, signature);
      hide Vouched;
    }
  }

  lemma NothingFired(j: nat, signature: Signature)
    ensures !FiredClosed(Fresh, j, signature) && Play([]) == Some(Fresh)
  {
  }

  /** When replies and status checks are honest about success, every confirmed close names a swap that landed. */
  lemma ConfirmedCloseHasLanded(events: seq<Event>, j: nat, signature: Signature)
    requires Play(events).Some? && Always(events, HonestSuccess) && FiredClosed(Play(events).value, j, signature)
    ensures var txs := Play(events).value.txs; signature < |txs| && txs[signature] == Tx(j, Landed)
  {
    ClosedIsVouchedFor(events, j, signature);
    var k: nat :| VouchedAt(events, k, j, signature);
    PlayGrows(events, k);
    PlayKeepsSwaps(events[..k]);
    AlwaysAt(events, HonestSuccess, k);
    assert OwnSwap(Play(events[..k]).value, j);
    hide Play, Always, FiredClosed;
  }

  lemma {:induction false} AlwaysAt(events: seq<Event>, a: Assumption, k: nat)
    requires Always(events, a) && k < |events| && Play(events[..k]).Some?
    ensures Holds(a, Play(events[..k]).value, events[k])
  {
    var front := events[..|events| - 1];
    if k < |front| {
      assert front[..k] == events[..k];
      AlwaysAt(front, a, k);
    }
    hide Play, Holds;
  }

  // ----- What comes of an attempt -----

  lemma FinishIsDone(w: World, j: nat, v: Verdict)
    requires j < |w.jobs|
    ensures |Finish(w, j, v).jobs| == |w.jobs| && Finish(w, j, v).jobs[j].pc == Done(v)
  {
  }

  lemma AfterOutcome(w: World, j: nat, result: AttemptResult)
    requires Placed(w) && j < |w.jobs|
    ensures |After(w, j, result).jobs| == |w.jobs|
    ensures var pc := After(w, j, result).jobs[j].pc;
      match result
      case Sold(signature) => pc == Done(Closed(signature))
      case NotSold(retryable) =>
        w.jobs[j].run < |w.runs|
        && pc == if retryable && w.jobs[j].attempt < w.runs[w.jobs[j].run].maxRetries then Sleeping else Done(Failed)
  {
    assert JobShape(w, w.jobs[j]);
    FinishIsDone(w, j, Failed);
    if result.Sold? {
      FinishIsDone(w, j, Closed(result.signature));
    }
    hide Finish;
  }

  /**
   * What a reply leads to: a signature closes, success without one fails, and so does an error, unless it holds one of
   * the four phrases and a retry is left; an ambiguous reply is looked up.
   */
  lemma AnswerOutcome(w: World, j: nat, reply: Reply)
    requires Placed(w) && Enabled(w, Answer(j, reply))
    ensures j < |Next(w, Answer(j, reply)).jobs| && w.jobs[j].run < |w.runs|
    ensures var pc := Next(w, Answer(j, reply)).jobs[j].pc;
      match reply
      case Signed => pc == Done(Closed(w.jobs[j].tx.value))
      case Unsigned => pc == Done(Failed)
      case Ambiguous => pc == Checking
      case Error(message) =>
        pc == if Declined(message) && w.jobs[j].attempt < w.runs[w.jobs[j].run].maxRetries then Sleeping
              else Done(Failed)
  {
    hide IsRetryableError, Declined, After;
    assert JobShape(w, w.jobs[j]);
    match reply
    case Signed => AfterOutcome(w, j, Sold(w.jobs[j].tx.value));
    case Unsigned => AfterOutcome(w, j, NotSold(false));
    case Ambiguous =>
    case Error(message) =>
      RetryableMeaning(message);
      DiscardKeepsPlaced(w, w.jobs[j].tx.value);
      AfterOutcome(Discarded(w, w.jobs[j].tx.value), j, NotSold(true));
      AfterOutcome(w, j, NotSold(false));
  }

  /** A status check closes exactly when it confirms, and an error before anything was sent is judged like a reply. */
  lemma OtherOutcomes(w: World, e: Event)
    requires Placed(w) && Enabled(w, e) && (e.Status? || e.Decline?)
    ensures e.job < |Next(w, e).jobs| && w.jobs[e.job].run < |w.runs|
    ensures var job, pc := w.jobs[e.job], Next(w, e).jobs[e.job].pc;
      && (e.Status? ==> pc == if e.confirmed then Done(Closed(job.tx.value)) else Done(Failed))
      && (e.Decline? ==>
            pc == if Declined(e.message) && job.attempt < w.runs[job.run].maxRetries then Sleeping else Done(Failed))
  {
    hide IsRetryableError, Declined, After;
    assert JobShape(w, w.jobs[e.job]);
    match e
    case Status(j, confirmed) =>
      AfterOutcome(w, j, if confirmed then Sold(w.jobs[j].tx.value) else NotSold(false));
    case Decline(j, message) =>
      RetryableMeaning(message);
      AfterOutcome(w, j, NotSold(IsRetryableError(message)));
  }

  /** The top of an attempt goes on exactly with budget left, the position open, and no tombstone of another run. */
  lemma TopOutcome(w: World, j: nat, budgetSpent: bool, open: bool)
    requires Placed(w) && Enabled(w, Top(j, budgetSpent, open))
    ensures var job, moved := w.jobs[j], Next(w, Top(j, budgetSpent, open));
      && j < |moved.jobs|
      && moved.jobs[j].pc == (
           if budgetSpent then Done(TimedOut)
           else if !open || (job.key in w.memory && w.memory[job.key] != job.run) then Done(Failed)
           else Quoting)
      && moved.memory == if moved.jobs[j].pc == Quoting then w.memory[job.key := job.run] else w.memory
  {
    hide After, Finish;
    FinishIsDone(w, j, TimedOut);
    FinishIsDone(w, j, Failed);
    AfterOutcome(w, j, NotSold(false));
    FailureKeepsMemory(w, j);
  }

  lemma FailureKeepsMemory(w: World, j: nat)
    requires j < |w.jobs|
    ensures Finish(w, j, TimedOut).memory == Finish(w, j, Failed).memory == w.memory
    ensures After(w, j, NotSold(false)).memory == w.memory
  {
  }

  // ----- When a swap is sent again -----

  lemma NextKeepsDone(w: World, e: Event, j: nat)
    requires OwnSwaps(w) && Enabled(w, e) && j < |w.jobs| && w.jobs[j].pc.Done?
    ensures var moved := Next(w, e);
      && j < |moved.jobs| && moved.jobs[j].pc == w.jobs[j].pc
      && forall t :: |w.txs| <= t < |moved.txs| ==> moved.txs[t].job != j
  {
    hide IsRetryableError, AllFailed, WithWorker, NewWorkers, ToLower;
    if e.Top? || e.Decline? || e.Answer? || e.Status? {
      var i := e.job;
      OnlyOneJobMoves(w, e);
      NextKeepsTxs(w, e);
      hide Next;
    }
  }

  lemma NextKeepsTxs(w: World, e: Event)
    requires Enabled(w, e) && (e.Top? || e.Decline? || e.Answer? || e.Status?)
    ensures |Next(w, e).txs| == |w.txs|
  {
    hide IsRetryableError, Finish, After;
    match e
    case Top(j, _, _) =>
      FinishKeepsSwaps(w, j, TimedOut);
      FinishKeepsSwaps(w, j, Failed);
      AfterKeepsSwaps(w, j, NotSold(false));
    case Decline(j, message) => AfterKeepsSwaps(w, j, NotSold(IsRetryableError(message)));
    case Answer(j, reply) =>
      AfterKeepsSwaps(w, j, Sold(w.jobs[j].tx.value));
      AfterKeepsSwaps(w, j, NotSold(false));
      AfterKeepsSwaps(Discarded(w, w.jobs[j].tx.value), j, NotSold(true));
    case Status(j, confirmed) =>
      AfterKeepsSwaps(w, j, if confirmed then Sold(w.jobs[j].tx.value) else NotSold(false));
  }

  /** The other jobs stay as they are. */
  predicate OthersStay(w: World, moved: World, j: nat) {
    |moved.jobs| == |w.jobs| && forall i :: 0 <= i < |w.jobs| && i != j ==> moved.jobs[i] == w.jobs[i]
  }

  lemma FinishMovesOne(w: World, j: nat, v: Verdict)
    requires j < |w.jobs|
    ensures OthersStay(w, Finish(w, j, v), j)
  {
  }

  lemma AfterMovesOne(w: World, j: nat, result: AttemptResult)
    requires j < |w.jobs|
    ensures OthersStay(w, After(w, j, result), j)
  {
    FinishMovesOne(w, j, Failed);
    if result.Sold? {
      FinishMovesOne(w, j, Closed(result.signature));
    }
    hide Finish;
  }

  lemma OnlyOneJobMoves(w: World, e: Event)
    requires Enabled(w, e) && (e.Top? || e.Decline? || e.Answer? || e.Status?)
    ensures OthersStay(w, Next(w, e), e.job)
  {
    hide IsRetryableError, Finish, After;
    match e
    case Top(j, _, _) =>
      FinishMovesOne(w, j, TimedOut);
      FinishMovesOne(w, j, Failed);
      AfterMovesOne(w, j, NotSold(false));
    case Decline(j, message) => AfterMovesOne(w, j, NotSold(IsRetryableError(message)));
    case Answer(j, reply) =>
      AfterMovesOne(w, j, Sold(w.jobs[j].tx.value));
      AfterMovesOne(w, j, NotSold(false));
      AfterMovesOne(Discarded(w, w.jobs[j].tx.value), j, NotSold(true));
    case Status(j, confirmed) =>
      AfterMovesOne(w, j, if confirmed then Sold(w.jobs[j].tx.value) else NotSold(false));
  }

  /** A close that is over stays over and sends nothing more, whatever happens. */
  lemma {:induction false} DoneSendsNothing(events: seq<Event>, more: seq<Event>, j: nat)
    requires Play(events).Some? && j < |Play(events).value.jobs| && Play(events).value.jobs[j].pc.Done?
    requires Play(events + more).Some?
    ensures var w, later := Play(events).value, Play(events + more).value;
      && j < |later.jobs| && later.jobs[j].pc == w.jobs[j].pc
      && |w.txs| <= |later.txs| && forall t :: |w.txs| <= t < |later.txs| ==> later.txs[t].job != j
    decreases |more|
  {
    hide Next, Enabled, OwnSwaps;
    if more == [] {
      assert events + more == events;
    } else {
      var last := |more| - 1;
      var front := events + more[..last];
      assert (events + more)[..|events + more| - 1] == front && (events + more)[|events + more| - 1] == more[last];
      DoneSendsNothing(events, more[..last], j);
      PlayKeepsSwaps(front);
      NextKeepsDone(Play(front).value, more[last], j);
      NextKeepsSwaps(Play(front).value, more[last]);
      hide Play;
    }
  }

  /** An error with none of the four phrases, say a lost connection, ends the close: it fails and sends nothing more. */
  lemma OtherErrorsAreFinal(events: seq<Event>, e: Event, more: seq<Event>)
    requires (e.Answer? && e.reply.Error? && !Declined(e.reply.message)) || (e.Decline? && !Declined(e.message))
    requires Play(events + [e]).Some? && Play(events + [e] + more).Some?
    ensures var w, later := Play(events + [e]).value, Play(events + [e] + more).value;
      && e.job < |w.jobs| && w.jobs[e.job].pc == Done(Failed)
      && e.job < |later.jobs| && later.jobs[e.job].pc == Done(Failed)
      && forall t :: |w.txs| <= t < |later.txs| ==> later.txs[t].job != e.job
  {
    assert (events + [e])[..|events + [e]| - 1] == events;
    PlayKeepsPlaced(events);
    if e.Answer? {
      AnswerOutcome(Play(events).value, e.job, e.reply);
    } else {
      OtherOutcomes(Play(events).value, e);
    }
    hide Next, Enabled, Declined, Placed;
    DoneSendsNothing(events + [e], more, e.job);
  }

  // ----- How many swaps a close sends -----

  /** The modes of the runs begun, in order. */
  function Modes(events: seq<Event>): seq<CloseMode> {
    if events == [] then []
    else
      var e := events[|events| - 1];
      Modes(events[..|events| - 1]) + if e.Begin? then [e.mode] else []
  }

  /** One retry in an emergency, three otherwise. */
  predicate RetriesOf(w: World, modes: seq<CloseMode>) {
    && |w.runs| == |modes|
    && forall r :: 0 <= r < |modes| ==> w.runs[r].maxRetries == if modes[r] == Emergency then 1 else 3
  }

  lemma NextKeepsRetries(w: World, e: Event, modes: seq<CloseMode>)
    requires RetriesOf(w, modes) && Enabled(w, e)
    ensures RetriesOf(Next(w, e), modes + if e.Begin? then [e.mode] else [])
  {
    if !e.Begin? && !e.Pull? {
      OtherSameShape(w, e);
      hide Next;
    }
  }

  lemma {:induction false} PlayKeepsRetries(events: seq<Event>)
    requires Play(events).Some?
    ensures RetriesOf(Play(events).value, Modes(events))
  {
    if events != [] {
      var front := events[..|events| - 1];
      PlayKeepsRetries(front);
      NextKeepsRetries(Play(front).value, events[|events| - 1], Modes(front));
    }
    hide Next, Enabled, RetriesOf;
  }

  function SentBy(txs: seq<Tx>, j: nat): nat {
    if txs == [] then 0 else SentBy(txs[..|txs| - 1], j) + if txs[|txs| - 1].job == j then 1 else 0
  }

  /** How many swaps a job may have sent so far. */
  function Allowed(job: Job): nat {
    job.attempt + if job.pc.AtTop? || job.pc.Quoting? then 0 else 1
  }

  predicate WithinAllowed(w: World) {
    && (forall t :: 0 <= t < |w.txs| ==> w.txs[t].job < |w.jobs|)
    && forall j :: 0 <= j < |w.jobs| ==> SentBy(w.txs, j) <= Allowed(w.jobs[j])
  }

  /** Nothing was sent, and no job lost a permission. */
  predicate NothingSent(w: World, moved: World) {
    && |moved.txs| == |w.txs| && |w.jobs| <= |moved.jobs|
    && (forall t :: 0 <= t < |w.txs| ==> moved.txs[t].job == w.txs[t].job)
    && forall j :: 0 <= j < |w.jobs| ==> Allowed(moved.jobs[j]) >= Allowed(w.jobs[j])
  }

  lemma {:induction false} SentBySame(txs: seq<Tx>, moved: seq<Tx>, j: nat)
    requires |txs| == |moved| && forall t :: 0 <= t < |txs| ==> moved[t].job == txs[t].job
    ensures SentBy(moved, j) == SentBy(txs, j)
  {
    if txs != [] {
      SentBySame(txs[..|txs| - 1], moved[..|txs| - 1], j);
    }
  }

  lemma {:induction false} SentByNone(txs: seq<Tx>, j: nat)
    requires forall t :: 0 <= t < |txs| ==> txs[t].job < j
    ensures SentBy(txs, j) == 0
  {
    if txs != [] {
      SentByNone(txs[..|txs| - 1], j);
    }
  }

  lemma NothingSentKept(w: World, moved: World)
    requires WithinAllowed(w) && NothingSent(w, moved)
    ensures WithinAllowed(moved)
  {
    hide SentBy, Allowed;
    forall j | 0 <= j < |moved.jobs|
      ensures SentBy(moved.txs, j) <= Allowed(moved.jobs[j])
    {
      SentBySame(w.txs, moved.txs, j);
      if j >= |w.jobs| {
        SentByNone(w.txs, j);
      }
    }
  }

  lemma FinishSendsNothing(w: World, j: nat, v: Verdict)
    requires j < |w.jobs|
    ensures NothingSent(w, Finish(w, j, v))
  {
    FinishKeepsSwaps(w, j, v);
    FinishMovesOne(w, j, v);
    FinishIsDone(w, j, v);
    FinishSameShape(w, j, v);
    assert Finish(w, j, v).jobs[j].attempt == w.jobs[j].attempt;
    hide Finish, SameShape;
  }

  lemma AfterSendsNothing(w: World, j: nat, result: AttemptResult)
    requires j < |w.jobs|
    ensures NothingSent(w, After(w, j, result))
  {
    hide Finish;
    FinishSendsNothing(w, j, Failed);
    if result.Sold? {
      FinishSendsNothing(w, j, Closed(result.signature));
    }
  }

  lemma SendIsAllowed(w: World, j: nat)
    requires WithinAllowed(w) && Enabled(w, Send(j))
    ensures WithinAllowed(Next(w, Send(j)))
  {
    var moved := Next(w, Send(j));
    forall i | 0 <= i < |moved.jobs|
      ensures SentBy(moved.txs, i) <= Allowed(moved.jobs[i])
    {
      assert moved.txs[..|w.txs|] == w.txs;
    }
  }

  lemma NextKeepsAllowed(w: World, e: Event)
    requires WithinAllowed(w) && Enabled(w, e)
    ensures WithinAllowed(Next(w, e))
  {
    if e.Send? {
      SendIsAllowed(w, e.job);
    } else {
      OthersSendNothing(w, e);
      NothingSentKept(w, Next(w, e));
    }
    hide Next, NothingSent;
  }

  lemma OthersSendNothing(w: World, e: Event)
    requires Enabled(w, e) && !e.Send?
    ensures NothingSent(w, Next(w, e))
  {
    hide IsRetryableError, After, Finish, AllFailed, WithWorker, NewWorkers, NothingSent;
    match e
    case Top(j, budgetSpent, open) =>
      FinishSendsNothing(w, j, TimedOut);
      FinishSendsNothing(w, j, Failed);
      AfterSendsNothing(w, j, NotSold(false));
      if !budgetSpent && open && !Refused(w.memory, w.jobs[j].key, w.jobs[j].run) {
        QuietlySendsNothing(w, e);
      }
    case Decline(j, message) => AfterSendsNothing(w, j, NotSold(IsRetryableError(message)));
    case Answer(j, reply) => AnswerSendsNothing(w, j, reply);
    case Status(j, confirmed) =>
      AfterSendsNothing(w, j, if confirmed then Sold(w.jobs[j].tx.value) else NotSold(false));
    case _ => QuietlySendsNothing(w, e);
  }

  lemma QuietlySendsNothing(w: World, e: Event)
    requires Enabled(w, e) && !e.Send? && !e.Decline? && !e.Answer? && !e.Status?
    requires e.Top? ==> !e.budgetSpent && e.open && !Refused(w.memory, w.jobs[e.job].key, w.jobs[e.job].run)
    ensures NothingSent(w, Next(w, e))
  {
    hide AllFailed, WithWorker, NewWorkers;
  }

  lemma AnswerSendsNothing(w: World, j: nat, reply: Reply)
    requires Enabled(w, Answer(j, reply))
    ensures NothingSent(w, AnswerStep(w, j, reply))
  {
    hide IsRetryableError, After;
    AfterSendsNothing(w, j, Sold(w.jobs[j].tx.value));
    AfterSendsNothing(w, j, NotSold(false));
    AfterSendsNothing(Discarded(w, w.jobs[j].tx.value), j, NotSold(true));
  }

  lemma {:induction false} PlayKeepsAllowed(events: seq<Event>)
    requires Play(events).Some?
    ensures WithinAllowed(Play(events).value)
  {
    if events != [] {
      var front := events[..|events| - 1];
      PlayKeepsAllowed(front);
      NextKeepsAllowed(Play(front).value, events[|events| - 1]);
    }
    hide Next, Enabled, WithinAllowed;
  }

  /** One close sends at most one swap per attempt, and makes two attempts in an emergency and four otherwise. */
  lemma AttemptsAreBounded(events: seq<Event>, j: nat)
    requires Play(events).Some? && j < |Play(events).value.jobs|
    ensures var w, modes := Play(events).value, Modes(events); var job := w.jobs[j];
      && job.run < |modes| && SentBy(w.txs, j) <= job.attempt + 1
      && job.attempt <= if modes[job.run] == Emergency then 1 else 3
  {
    PlayKeepsPlaced(events);
    PlayKeepsRetries(events);
    PlayKeepsAllowed(events);
    assert JobShape(Play(events).value, Play(events).value.jobs[j]);
    hide Play, Modes, SentBy;
  }

  // ----- What a run reports -----

  /** The recorded results of a run are those of its jobs. */
  ghost predicate RunResults(w: World, r: RunId)
    requires r < |w.runs|
  {
    var run := w.runs[r];
    if run.aborted then run.cursor == 0 && run.results == AllFailed(run.keys)
    else
      && (forall j :: 0 <= j < |w.jobs| && w.jobs[j].run == r && w.jobs[j].recorded.Some? ==>
            w.jobs[j].key in run.results && run.results[w.jobs[j].key] == w.jobs[j].recorded.value)
      && (forall key :: key in run.results ==> exists j :: RecordedBy(w, r, key, j))
  }

  predicate RecordedBy(w: World, r: RunId, key: Key, j: nat) {
    j < |w.jobs| && w.jobs[j].run == r && w.jobs[j].key == key && w.jobs[j].recorded.Some?
  }

  ghost predicate Results(w: World) {
    forall r :: 0 <= r < |w.runs| ==> RunResults(w, r)
  }

  /** Everything results are about stayed the same. */
  predicate SameResults(w: World, moved: World) {
    && |moved.runs| == |w.runs| && |moved.jobs| == |w.jobs|
    && (forall r :: 0 <= r < |w.runs| ==>
          moved.runs[r].keys == w.runs[r].keys && moved.runs[r].aborted == w.runs[r].aborted
          && moved.runs[r].cursor == w.runs[r].cursor && moved.runs[r].results == w.runs[r].results)
    && (forall j :: 0 <= j < |w.jobs| ==>
          moved.jobs[j].run == w.jobs[j].run && moved.jobs[j].key == w.jobs[j].key
            && moved.jobs[j].recorded == w.jobs[j].recorded)
  }

  lemma SameResultsKept(w: World, moved: World)
    requires Results(w) && SameResults(w, moved)
    ensures Results(moved)
  {
    forall r | 0 <= r < |moved.runs|
      ensures RunResults(moved, r)
    {
      assert RunResults(w, r);
      if !w.runs[r].aborted {
        forall key | key in moved.runs[r].results
          ensures exists j :: RecordedBy(moved, r, key, j)
        {
          var j: nat :| RecordedBy(w, r, key, j);
          assert RecordedBy(moved, r, key, j);
        }
      }
    }
  }

  lemma RecordKeepsResults(w: World, j: nat, v: Verdict)
    requires Shape(w) && Results(w) && j < |w.jobs|
    ensures Results(Record(w, j, v))
  {
    var moved := Record(w, j, v);
    var job := w.jobs[j];
    assert JobShape(w, job) && RunResults(w, job.run);
    if job.recorded.None? {
      forall r | 0 <= r < |moved.runs|
        ensures RunResults(moved, r)
      {
        assert RunResults(w, r);
        if !w.runs[r].aborted {
          forall i | 0 <= i < |moved.jobs| && moved.jobs[i].run == r && moved.jobs[i].recorded.Some?
            ensures moved.jobs[i].key in moved.runs[r].results
              && moved.runs[r].results[moved.jobs[i].key] == moved.jobs[i].recorded.value
          {
            if r == job.run && w.jobs[i].key == job.key {
              OneJobPerPosition(w, i, j);
            }
          }
          forall key | key in moved.runs[r].results
            ensures exists i :: RecordedBy(moved, r, key, i)
          {
            if r == job.run && key == job.key {
              assert RecordedBy(moved, r, key, j);
            } else {
              var i: nat :| RecordedBy(w, r, key, i);
              assert RecordedBy(moved, r, key, i);
            }
          }
        }
      }
    }
  }

  lemma FinishKeepsResults(w: World, j: nat, v: Verdict)
    requires Shape(w) && Results(w) && j < |w.jobs|
    ensures Results(Finish(w, j, v))
  {
    var job := w.jobs[j];
    var reported := Report(Confirm(WithJob(w, j, job.(pc := Done(v))), job.key, v), j, v);
    SameResultsKept(w, reported);
    SameShapeKeepsShape(w, reported);
    hide Shape, Results, Report, Confirm;
    RecordKeepsResults(reported, j, v);
  }

  lemma AfterKeepsResults(w: World, j: nat, result: AttemptResult)
    requires Shape(w) && Results(w) && j < |w.jobs|
    ensures Results(After(w, j, result))
  {
    hide Finish, Shape, Results;
    var job := w.jobs[j];
    var maxRetries := if job.run < |w.runs| then w.runs[job.run].maxRetries else 0;
    var decision := Decide(result, job.attempt, maxRetries);
    if decision.Some? {
      FinishKeepsResults(w, j, decision.value);
    } else {
      SameResultsKept(w, After(w, j, result));
    }
  }

  lemma AnswerKeepsResults(w: World, j: nat, reply: Reply)
    requires Shape(w) && Results(w) && Enabled(w, Answer(j, reply))
    ensures Results(AnswerStep(w, j, reply))
  {
    hide After, Shape, Results, IsRetryableError;
    match reply
    case Signed => AfterKeepsResults(w, j, Sold(w.jobs[j].tx.value));
    case Unsigned => AfterKeepsResults(w, j, NotSold(false));
    case Ambiguous => SameResultsKept(w, AnswerStep(w, j, reply));
    case Error(message) =>
      if IsRetryableError(message) {
        var discarded := Discarded(w, w.jobs[j].tx.value);
        SameResultsKept(w, discarded);
        DiscardKeepsShape(w, w.jobs[j].tx.value);
        AfterKeepsResults(discarded, j, NotSold(true));
      } else {
        AfterKeepsResults(w, j, NotSold(false));
      }
  }

  lemma TopKeepsResults(w: World, e: Event)
    requires Shape(w) && Results(w) && Enabled(w, e) && e.Top?
    ensures Results(Next(w, e))
  {
    hide After, Finish, Shape, Results;
    var j := e.job;
    if e.budgetSpent {
      FinishKeepsResults(w, j, TimedOut);
    } else if !e.open {
      FinishKeepsResults(w, j, Failed);
    } else if Refused(w.memory, w.jobs[j].key, w.jobs[j].run) {
      AfterKeepsResults(w, j, NotSold(false));
    } else {
      SameResultsKept(w, Next(w, e));
    }
  }

  lemma StartKeepsResults(w: World, e: Event)
    requires Shape(w) && Results(w) && Enabled(w, e) && (e.Begin? || e.Abort? || e.Pull?)
    ensures Results(Next(w, e))
  {
    var moved := Next(w, e);
    forall r | 0 <= r < |moved.runs|
      ensures RunResults(moved, r)
    {
      if r < |w.runs| {
        assert RunResults(w, r);
        forall key | key in w.runs[r].results && !w.runs[r].aborted
          ensures exists j :: RecordedBy(moved, r, key, j)
        {
          var j: nat :| RecordedBy(w, r, key, j);
          assert RecordedBy(moved, r, key, j);
        }
      } else {
        assert forall j :: 0 <= j < |w.jobs| ==> JobShape(w, w.jobs[j]) && w.jobs[j].run != r;
      }
    }
  }

  /** Events that record nothing and start nothing. */
  predicate RecordsNothing(e: Event) {
    e.Deadline? || e.Send? || e.Land? || e.Wake? || e.Flush? || e.Restart?
  }

  lemma NothingRecorded(w: World, e: Event)
    requires Enabled(w, e) && RecordsNothing(e)
    ensures SameResults(w, Next(w, e)) && SameWork(w, Next(w, e))
  {
  }

  lemma NextKeepsResults(w: World, e: Event)
    requires Shape(w) && Results(w) && Enabled(w, e)
    ensures Results(Next(w, e))
  {
    hide Shape, Results, After, Finish, IsRetryableError, Record, SameResults, SameWork;
    if RecordsNothing(e) {
      NothingRecorded(w, e);
      SameResultsKept(w, Next(w, e));
    } else {
      RecordingKeepsResults(w, e);
    }
    hide Next;
  }

  lemma RecordingKeepsResults(w: World, e: Event)
    requires Shape(w) && Results(w) && Enabled(w, e) && !RecordsNothing(e)
    ensures Results(Next(w, e))
  {
    hide Shape, Results, After, Finish, IsRetryableError, Record, AllFailed;
    match e
    case Begin(_, _) => StartKeepsResults(w, e);
    case Abort(_) => StartKeepsResults(w, e);
    case Pull(_, _) => StartKeepsResults(w, e);
    case Top(_, _, _) => TopKeepsResults(w, e);
    case Decline(j, message) => AfterKeepsResults(w, j, NotSold(IsRetryableError(message)));
    case Answer(j, reply) => AnswerKeepsResults(w, j, reply);
    case Status(j, confirmed) =>
      AfterKeepsResults(w, j, if confirmed then Sold(w.jobs[j].tx.value) else NotSold(false));
    case Timeout(j) =>
      SameResultsKept(w, Report(w, j, TimedOut));
      SameShapeKeepsShape(w, Report(w, j, TimedOut));
      RecordKeepsResults(Report(w, j, TimedOut), j, TimedOut);
  }

  lemma {:induction false} PlayKeepsResults(events: seq<Event>)
    requires Play(events).Some? && Always(events, DistinctKeys)
    ensures Results(Play(events).value)
  {
    if events != [] {
      var front := events[..|events| - 1];
      PlayKeepsResults(front);
      PlayKeepsShape(front);
      NextKeepsResults(Play(front).value, events[|events| - 1]);
    }
    hide Next, Enabled, Shape;
  }

  /** A position of run r for which exactly one verdict fired, a confirmed close. */
  predicate ClosedOnce(w: World, r: RunId, key: Key, j: nat) {
    j < |w.jobs| && w.jobs[j].run == r && w.jobs[j].key == key && |w.jobs[j].fired| == 1 && w.jobs[j].fired[0].Closed?
  }

  /** Whenever a run is summed up, the positions it counts as closed are exactly those reported closed, once each. */
  lemma CountedClosedIsReportedOnce(events: seq<Event>, r: RunId, key: Key)
    requires Play(events).Some? && Always(events, DistinctKeys) && r < |Play(events).value.runs|
    ensures var w := Play(events).value;
      ResultOf(w.runs[r].results, key).Closed? <==> exists j :: ClosedOnce(w, r, key, j)
  {
    PlayKeepsResults(events);
    PlayKeepsVerdicts(events);
    PlayKeepsPlaced(events);
    var w := Play(events).value;
    assert RunResults(w, r);
    hide Play, Always, Results;
    if ResultOf(w.runs[r].results, key).Closed? {
      assert !w.runs[r].aborted;
      var j: nat :| RecordedBy(w, r, key, j);
      assert JobVerdicts(w.jobs[j]);
      assert ClosedOnce(w, r, key, j);
    }
    if j: nat :| ClosedOnce(w, r, key, j) {
      assert JobVerdicts(w.jobs[j]) && JobShape(w, w.jobs[j]);
    }
  }

  /** The summary of a run accounts for every position, and lists those not reported closed. */
  lemma RunSummary(events: seq<Event>, r: RunId)
    requires Play(events).Some? && Always(events, DistinctKeys) && r < |Play(events).value.runs|
    ensures var w := Play(events).value; var s := Summarize(w.runs[r].keys, w.runs[r].results);
      && s.closed + s.failed + s.timedOut == s.total == |w.runs[r].keys|
      && forall key :: key in w.runs[r].keys ==> (key in s.failedSymbols <==> !exists j :: ClosedOnce(w, r, key, j))
  {
    var w := Play(events).value;
    SummaryAddsUp(w.runs[r].keys, w.runs[r].results);
    forall key | key in w.runs[r].keys
      ensures ResultOf(w.runs[r].results, key).Closed? <==> exists j :: ClosedOnce(w, r, key, j)
    {
      CountedClosedIsReportedOnce(events, r, key);
    }
    hide Play, Always, Select, ResultOf, ClosedOnce;
  }

  // ----- How many closes of a run are at work -----

  /** The jobs of run r whose worker still waits for a result. */
  function AtWork(jobs: seq<Job>, r: RunId): nat {
    if jobs == [] then 0
    else AtWork(jobs[..|jobs| - 1], r) + if jobs[|jobs| - 1].run == r && jobs[|jobs| - 1].recorded.None? then 1 else 0
  }

  function BusyWorkers(workers: seq<bool>): (n: nat)
    ensures n <= |workers|
  {
    if workers == [] then 0 else BusyWorkers(workers[..|workers| - 1]) + if workers[|workers| - 1] then 1 else 0
  }

  predicate Waiting(job: Job, r: RunId) {
    job.run == r && job.recorded.None?
  }

  /** The jobs at work keep workers of their own busy, and nothing else does. */
  predicate Staffed(w: World, r: RunId)
    requires r < |w.runs|
  {
    var workers := w.runs[r].workers;
    && |workers| <= MAX_PARALLEL_CLOSES && AtWork(w.jobs, r) == BusyWorkers(workers)
    && (forall j :: 0 <= j < |w.jobs| && Waiting(w.jobs[j], r) ==>
         w.jobs[j].worker < |workers| && workers[w.jobs[j].worker])
    && (forall i, j :: 0 <= i < j < |w.jobs| && Waiting(w.jobs[i], r) && Waiting(w.jobs[j], r) ==>
          w.jobs[i].worker != w.jobs[j].worker)
  }

  predicate Workers(w: World) {
    && (forall j :: 0 <= j < |w.jobs| ==> w.jobs[j].run < |w.runs|)
    && (forall r :: 0 <= r < |w.runs| ==> Staffed(w, r))
  }

  predicate SameWork(w: World, moved: World) {
    && |moved.runs| == |w.runs| && |moved.jobs| == |w.jobs|
    && (forall r :: 0 <= r < |w.runs| ==> moved.runs[r].workers == w.runs[r].workers)
    && SameWaiting(w.jobs, moved.jobs)
  }

  predicate SameWaiting(jobs: seq<Job>, moved: seq<Job>)
    requires |jobs| == |moved|
  {
    forall j :: 0 <= j < |jobs| ==>
      moved[j].run == jobs[j].run && moved[j].recorded == jobs[j].recorded && moved[j].worker == jobs[j].worker
  }

  lemma {:induction false} AtWorkSame(jobs: seq<Job>, moved: seq<Job>, r: RunId)
    requires |jobs| == |moved| && SameWaiting(jobs, moved)
    ensures AtWork(jobs, r) == AtWork(moved, r)
  {
    if jobs != [] {
      AtWorkSame(jobs[..|jobs| - 1], moved[..|jobs| - 1], r);
    }
  }

  lemma {:induction false} AtWorkRecord(jobs: seq<Job>, j: nat, v: Verdict, r: RunId)
    requires j < |jobs| && jobs[j].recorded.None?
    ensures AtWork(jobs[j := jobs[j].(recorded := Some(v))], r) == AtWork(jobs, r) - if jobs[j].run == r then 1 else 0
  {
    var m := |jobs| - 1;
    var moved := jobs[j := jobs[j].(recorded := Some(v))];
    if j == m {
      assert moved[..m] == jobs[..m];
    } else {
      assert moved[..m] == jobs[..m][j := jobs[j].(recorded := Some(v))];
      AtWorkRecord(jobs[..m], j, v, r);
    }
  }

  lemma {:induction false} BusyChange(workers: seq<bool>, k: nat, busy: bool)
    requires k < |workers| && workers[k] != busy
    ensures BusyWorkers(workers[k := busy]) == BusyWorkers(workers) + if busy then 1 else -1
  {
    var m := |workers| - 1;
    var moved := workers[k := busy];
    if k == m {
      assert moved[..m] == workers[..m];
    } else {
      assert moved[..m] == workers[..m][k := busy];
      BusyChange(workers[..m], k, busy);
    }
  }

  lemma {:induction false} NoneBusy(workers: seq<bool>)
    requires forall k :: 0 <= k < |workers| ==> !workers[k]
    ensures BusyWorkers(workers) == 0
  {
    if workers != [] {
      NoneBusy(workers[..|workers| - 1]);
    }
  }

  lemma SameWorkKept(w: World, moved: World)
    requires Workers(w) && SameWork(w, moved)
    ensures Workers(moved)
  {
    hide AtWork, BusyWorkers;
    forall r | 0 <= r < |moved.runs|
      ensures Staffed(moved, r)
    {
      assert Staffed(w, r);
      AtWorkSame(w.jobs, moved.jobs, r);
    }
  }

  lemma RecordKeepsWorkers(w: World, j: nat, v: Verdict)
    requires Workers(w) && j < |w.jobs|
    ensures Workers(Record(w, j, v))
  {
    hide AtWork, BusyWorkers;
    var moved := Record(w, j, v);
    var job := w.jobs[j];
    if job.recorded.None? && job.run < |w.runs| {
      forall r | 0 <= r < |moved.runs|
        ensures Staffed(moved, r)
      {
        assert Staffed(w, r);
        AtWorkRecord(w.jobs, j, v, r);
        if r == job.run {
          assert Waiting(job, r);
          BusyChange(w.runs[r].workers, job.worker, false);
        }
      }
    }
  }

  lemma FinishKeepsWorkers(w: World, j: nat, v: Verdict)
    requires Workers(w) && j < |w.jobs|
    ensures Workers(Finish(w, j, v))
  {
    var job := w.jobs[j];
    var reported := Report(Confirm(WithJob(w, j, job.(pc := Done(v))), job.key, v), j, v);
    SameWorkKept(w, reported);
    RecordKeepsWorkers(reported, j, v);
    hide Workers, Report, Confirm;
  }

  lemma AfterKeepsWorkers(w: World, j: nat, result: AttemptResult)
    requires Workers(w) && j < |w.jobs|
    ensures Workers(After(w, j, result))
  {
    hide Finish, Workers;
    var job := w.jobs[j];
    var maxRetries := if job.run < |w.runs| then w.runs[job.run].maxRetries else 0;
    var decision := Decide(result, job.attempt, maxRetries);
    if decision.Some? {
      FinishKeepsWorkers(w, j, decision.value);
    } else {
      SameWorkKept(w, After(w, j, result));
    }
  }

  lemma AnswerKeepsWorkers(w: World, j: nat, reply: Reply)
    requires Workers(w) && Enabled(w, Answer(j, reply))
    ensures Workers(AnswerStep(w, j, reply))
  {
    hide After, Workers, IsRetryableError;
    match reply
    case Signed => AfterKeepsWorkers(w, j, Sold(w.jobs[j].tx.value));
    case Unsigned => AfterKeepsWorkers(w, j, NotSold(false));
    case Ambiguous => SameWorkKept(w, AnswerStep(w, j, reply));
    case Error(message) =>
      if IsRetryableError(message) {
        var discarded := Discarded(w, w.jobs[j].tx.value);
        SameWorkKept(w, discarded);
        AfterKeepsWorkers(discarded, j, NotSold(true));
      } else {
        AfterKeepsWorkers(w, j, NotSold(false));
      }
  }

  lemma TopKeepsWorkers(w: World, e: Event)
    requires Workers(w) && Enabled(w, e) && e.Top?
    ensures Workers(Next(w, e))
  {
    hide After, Finish, Workers;
    var j := e.job;
    if e.budgetSpent {
      FinishKeepsWorkers(w, j, TimedOut);
    } else if !e.open {
      FinishKeepsWorkers(w, j, Failed);
    } else if Refused(w.memory, w.jobs[j].key, w.jobs[j].run) {
      AfterKeepsWorkers(w, j, NotSold(false));
    } else {
      SameWorkKept(w, Next(w, e));
    }
  }

  lemma {:induction false} NoneAtWork(jobs: seq<Job>, r: RunId)
    requires forall j :: 0 <= j < |jobs| ==> jobs[j].run < r
    ensures AtWork(jobs, r) == 0
  {
    if jobs != [] {
      NoneAtWork(jobs[..|jobs| - 1], r);
    }
  }

  lemma BeginKeepsWorkers(w: World, keys: seq<Key>, mode: CloseMode)
    requires Workers(w)
    ensures Workers(Next(w, Begin(keys, mode)))
  {
    var moved := Next(w, Begin(keys, mode));
    NoneAtWork(w.jobs, |w.runs|);
    NoneBusy(NewWorkers(|keys|));
    hide AtWork, BusyWorkers, NewWorkers;
    forall r | 0 <= r < |moved.runs|
      ensures Staffed(moved, r)
    {
      assert r < |w.runs| ==> Staffed(w, r);
    }
  }

  lemma PullKeepsWorkers(w: World, r: RunId, k: nat)
    requires Workers(w) && Enabled(w, Pull(r, k))
    ensures Workers(Next(w, Pull(r, k)))
  {
    var moved := Next(w, Pull(r, k));
    var job := NewJob(w, r, k);
    BusyChange(w.runs[r].workers, k, true);
    hide BusyWorkers, NewJob;
    forall q | 0 <= q < |moved.runs|
      ensures Staffed(moved, q)
    {
      assert Staffed(w, q);
      OneMoreAtWork(w.jobs, job, q);
      hide AtWork;
    }
  }

  lemma OneMoreAtWork(jobs: seq<Job>, job: Job, r: RunId)
    ensures AtWork(jobs + [job], r) == AtWork(jobs, r) + if Waiting(job, r) then 1 else 0
  {
    assert (jobs + [job])[..|jobs|] == jobs;
  }

  lemma NextKeepsWorkers(w: World, e: Event)
    requires Workers(w) && Enabled(w, e)
    ensures Workers(Next(w, e))
  {
    hide Workers, After, Finish, IsRetryableError, Record, SameResults, SameWork;
    if RecordsNothing(e) {
      NothingRecorded(w, e);
      SameWorkKept(w, Next(w, e));
    } else {
      RecordingKeepsWorkers(w, e);
    }
    hide Next;
  }

  lemma RecordingKeepsWorkers(w: World, e: Event)
    requires Workers(w) && Enabled(w, e) && !RecordsNothing(e)
    ensures Workers(Next(w, e))
  {
    hide Workers, After, Finish, IsRetryableError, Record, AllFailed;
    match e
    case Begin(keys, mode) => BeginKeepsWorkers(w, keys, mode);
    case Abort(_) => SameWorkKept(w, Next(w, e));
    case Pull(r, k) => PullKeepsWorkers(w, r, k);
    case Top(_, _, _) => TopKeepsWorkers(w, e);
    case Decline(j, message) => AfterKeepsWorkers(w, j, NotSold(IsRetryableError(message)));
    case Answer(j, reply) => AnswerKeepsWorkers(w, j, reply);
    case Status(j, confirmed) =>
      AfterKeepsWorkers(w, j, if confirmed then Sold(w.jobs[j].tx.value) else NotSold(false));
    case Timeout(j) =>
      SameWorkKept(w, Report(w, j, TimedOut));
      RecordKeepsWorkers(Report(w, j, TimedOut), j, TimedOut);
  }

  lemma {:induction false} PlayKeepsWorkers(events: seq<Event>)
    requires Play(events).Some?
    ensures Workers(Play(events).value)
  {
    if events != [] {
      var front := events[..|events| - 1];
      PlayKeepsWorkers(front);
      NextKeepsWorkers(Play(front).value, events[|events| - 1]);
    }
    hide Next, Enabled, Workers;
  }

  /** A run never has more than four closes that its workers wait for, whatever happens. */
  lemma AtMostFourAtWork(events: seq<Event>, r: RunId)
    requires Play(events).Some? && r < |Play(events).value.runs|
    ensures AtWork(Play(events).value.jobs, r) <= 4
  {
    PlayKeepsWorkers(events);
    assert Staffed(Play(events).value, r);
    hide Play, AtWork;
  }

  // ----- What starts and what stops a run -----

  /** A free worker pulls the next position of the snapshot, unless the deadline was reached or the run was aborted. */
  lemma PullTakesTheNext(w: World, r: RunId, k: nat)
    requires r < |w.runs| && Placed(w)
    ensures var run := w.runs[r];
      Enabled(w, Pull(r, k)) <==>
        k < |run.workers| && !run.workers[k] && run.cursor < |run.keys| && !run.deadlineReached && !run.aborted
    ensures Enabled(w, Pull(r, k)) ==>
      var run, moved := w.runs[r], Next(w, Pull(r, k));
      && |moved.jobs| == |w.jobs| + 1 && moved.jobs[..|w.jobs|] == w.jobs
      && moved.runs[r].cursor == run.cursor + 1 && moved.runs[r].workers == run.workers[k := true]
      && var job := moved.jobs[|w.jobs|];
         job.run == r && job.key == run.keys[run.cursor] && job.attempt == 0 && job.pc == AtTop && job.tx == None
  {
  }

  predicate Stopped(w: World, r: RunId) {
    r < |w.runs| && (w.runs[r].deadlineReached || w.runs[r].aborted)
  }

  lemma NextKeepsStopped(w: World, e: Event, r: RunId)
    requires Enabled(w, e) && Stopped(w, r)
    ensures Stopped(Next(w, e), r) && Next(w, e).runs[r].cursor == w.runs[r].cursor
  {
    hide IsRetryableError, AllFailed, NewWorkers, WithWorker;
    if !e.Begin? && !e.Pull? && !e.Abort? && !e.Deadline? {
      OtherSameShape(w, e);
      FlagsKept(w, e, r);
      hide Next;
    }
  }

  lemma FinishKeepsFlags(w: World, j: nat, v: Verdict, r: RunId)
    requires j < |w.jobs| && Stopped(w, r)
    ensures Stopped(Finish(w, j, v), r)
  {
  }

  lemma AfterKeepsFlags(w: World, j: nat, result: AttemptResult, r: RunId)
    requires j < |w.jobs| && Stopped(w, r)
    ensures Stopped(After(w, j, result), r)
  {
    hide Finish;
    FinishKeepsFlags(w, j, Failed, r);
    if result.Sold? {
      FinishKeepsFlags(w, j, Closed(result.signature), r);
    }
  }

  lemma FlagsKept(w: World, e: Event, r: RunId)
    requires Enabled(w, e) && Stopped(w, r) && !e.Begin? && !e.Pull? && !e.Abort? && !e.Deadline?
    ensures Stopped(Next(w, e), r)
  {
    hide IsRetryableError, After, Finish;
    match e
    case Top(j, _, _) =>
      FinishKeepsFlags(w, j, TimedOut, r);
      FinishKeepsFlags(w, j, Failed, r);
      AfterKeepsFlags(w, j, NotSold(false), r);
    case Decline(j, message) => AfterKeepsFlags(w, j, NotSold(IsRetryableError(message)), r);
    case Answer(j, reply) =>
      AfterKeepsFlags(w, j, Sold(w.jobs[j].tx.value), r);
      AfterKeepsFlags(w, j, NotSold(false), r);
      AfterKeepsFlags(Discarded(w, w.jobs[j].tx.value), j, NotSold(true), r);
    case Status(j, confirmed) =>
      AfterKeepsFlags(w, j, if confirmed then Sold(w.jobs[j].tx.value) else NotSold(false), r);
    case _ =>
  }

  /** Once its deadline is reached, or it is aborted, a run starts no further close. */
  lemma {:induction false} StoppedStartsNothing(events: seq<Event>, more: seq<Event>, r: RunId)
    requires Play(events).Some? && Stopped(Play(events).value, r) && Play(events + more).Some?
    ensures var w, later := Play(events).value, Play(events + more).value;
      Stopped(later, r) && later.runs[r].cursor == w.runs[r].cursor
    decreases |more|
  {
    hide Next, Enabled, Stopped;
    if more == [] {
      assert events + more == events;
    } else {
      var last := |more| - 1;
      assert (events + more)[..|events + more| - 1] == events + more[..last];
      assert (events + more)[|events + more| - 1] == more[last];
      StoppedStartsNothing(events, more[..last], r);
      NextKeepsStopped(Play(events + more[..last]).value, more[last], r);
    }
  }

  lemma {:induction false} SelectAll(keys: seq<Key>, p: Key -> bool)
    ensures (forall k :: k in keys ==> p(k)) ==> Select(keys, p) == keys
    ensures (forall k :: k in keys ==> !p(k)) ==> Select(keys, p) == []
  {
    if keys != [] {
      var m := |keys| - 1;
      SelectAll(keys[..m], p);
      assert keys == keys[..m] + [keys[m]];
    }
  }

  /** An aborted run reports every position as failed. */
  lemma AbortFailsAll(w: World, r: RunId)
    requires Enabled(w, Abort(r))
    ensures var run := Next(w, Abort(r)).runs[r]; var s := Summarize(run.keys, run.results);
      run.keys == w.runs[r].keys && s.failed == |run.keys| && s.failedSymbols == run.keys && s.timedOut == 0
  {
    var run := Next(w, Abort(r)).runs[r];
    SelectAll(run.keys, k => ResultOf(run.results, k).Failed?);
    SelectAll(run.keys, k => ResultOf(run.results, k).TimedOut?);
    SelectAll(run.keys, k => !ResultOf(run.results, k).Closed?);
  }

  /** A timeout frees the worker and is the result, while the attempt itself goes on. */
  lemma TimeoutFreesTheWorker(w: World, j: nat)
    requires Placed(w) && Enabled(w, Timeout(j))
    ensures w.jobs[j].run < |w.runs|
    ensures var job, moved := w.jobs[j], Next(w, Timeout(j)); var run := moved.runs[job.run];
      && |moved.runs| == |w.runs| && |moved.jobs| == |w.jobs|
      && moved.jobs[j].pc == job.pc && moved.jobs[j].recorded == Some(TimedOut)
      && job.key in run.results && run.results[job.key] == TimedOut
      && (job.worker < |run.workers| ==> !run.workers[job.worker])
  {
    assert JobShape(w, w.jobs[j]);
  }

  // ----- The assumptions are needed -----

  lemma PlayOne(events: seq<Event>, e: Event)
    requires Play(events).Some? && Enabled(Play(events).value, e)
    ensures Play(events + [e]) == Some(Next(Play(events).value, e))
  {
    assert (events + [e])[..|events + [e]| - 1] == events;
    hide Next, Enabled;
  }

  /** One attempt up to the sending of its swap. */
  function Attempt(j: nat): seq<Event> {
    [Top(j, false, true), Send(j)]
  }

  /** The world after such an attempt. */
  function AfterAttempt(w: World, j: nat): World
    requires j < |w.jobs|
  {
    var job := w.jobs[j];
    WithJob(w, j, job.(pc := Swapping, tx := Some(|w.txs|))).(
      txs := w.txs + [Tx(j, Pending)], memory := w.memory[job.key := job.run])
  }

  lemma AttemptSends(events: seq<Event>, j: nat)
    requires Play(events).Some? && JobAt(Play(events).value, j, AtTop)
    requires var w := Play(events).value; !Refused(w.memory, w.jobs[j].key, w.jobs[j].run)
    ensures Play(events + Attempt(j)) == Some(AfterAttempt(Play(events).value, j))
  {
    hide Play;
    var w := Play(events).value;
    var top := Top(j, false, true);
    PlayOne(events, top);
    PlayOne(events + [top], Send(j));
    assert events + Attempt(j) == events + [top] + [Send(j)];
    assert Next(Next(w, top), Send(j)).jobs == AfterAttempt(w, j).jobs;
  }

  /** An attempt whose swap, the t-th of all, lands. */
  function Sale(j: nat, t: Signature): seq<Event> {
    Attempt(j) + [Land(t)]
  }

  function AfterSale(w: World, j: nat): World
    requires j < |w.jobs|
  {
    AfterAttempt(w, j).(txs := w.txs + [Tx(j, Landed)], log := w.log + [Sell(w.jobs[j].key)])
  }

  lemma SaleLands(events: seq<Event>, j: nat)
    requires Play(events).Some? && JobAt(Play(events).value, j, AtTop)
    requires var w := Play(events).value; !Refused(w.memory, w.jobs[j].key, w.jobs[j].run)
    ensures var w := Play(events).value; Play(events + Sale(j, |w.txs|)) == Some(AfterSale(w, j))
  {
    hide Play;
    var w := Play(events).value;
    AttemptSends(events, j);
    PlayOne(events + Attempt(j), Land(|w.txs|));
    assert events + Sale(j, |w.txs|) == events + Attempt(j) + [Land(|w.txs|)];
    assert AfterAttempt(w, j).txs[|w.txs| := Tx(j, Landed)] == w.txs + [Tx(j, Landed)];
  }

  /** Two swaps of one position land after everything else. */
  lemma BothLand(events: seq<Event>, key: Key)
    requires Play(events).Some? && |Play(events).value.txs| == 2
    requires var w := Play(events).value;
      forall t :: 0 <= t < 2 ==>
        w.txs[t].status != Landed && w.txs[t].job < |w.jobs| && w.jobs[w.txs[t].job].key == key
    ensures var w := Play(events).value; var after := Play(events + [Land(0)] + [Land(1)]);
      after.Some? && SoldSinceClear(after.value.log, key) == SoldSinceClear(w.log, key) + 2
  {
    hide Play, SoldSinceClear, Sells, Clears;
    var w := Play(events).value;
    PlayOne(events, Land(0));
    PlayOne(events + [Land(0)], Land(1));
    TwoSells(w.log, key);
  }

  lemma TwoSells(log: seq<Entry>, key: Key)
    ensures SoldSinceClear(log + [Sell(key)] + [Sell(key)], key) == SoldSinceClear(log, key) + 2
  {
    Logged(log, Sell(key), key);
    Logged(log + [Sell(key)], Sell(key), key);
  }

  lemma NoneSold(key: Key)
    ensures SoldSinceClear([], key) == 0 && SoldSinceClear([Clear(key)], key) == 0
  {
  }

  /** The events that may break an assumption. */
  ghost predicate Concerns(a: Assumption, e: Event) {
    match a
    case DistinctKeys => e.Begin? && !Distinct(e.keys)
    case HonestSuccess => (e.Answer? && e.reply.Signed?) || (e.Status? && e.confirmed)
    case HonestRetry => e.Answer? && e.reply.Error? && Declined(e.reply.message)
    case SettledDisk => e.Restart?
  }

  lemma {:induction false} Unconcerned(events: seq<Event>, a: Assumption)
    requires forall e :: e in events ==> !Concerns(a, e)
    ensures Always(events, a)
  {
    if events != [] {
      var front := events[..|events| - 1];
      Unconcerned(front, a);
      assert !Concerns(a, events[|events| - 1]);
      if a.HonestRetry? && Play(front).Some? {
        NothingRejected(front);
      }
    }
    hide Play, IsRetryableError, Declined;
  }

  predicate NoneRejected(w: World) {
    forall t :: 0 <= t < |w.txs| ==> w.txs[t].status != Rejected
  }

  lemma {:induction false} NothingRejected(events: seq<Event>)
    requires Play(events).Some? && forall e :: e in events ==> !Concerns(HonestRetry, e)
    ensures NoneRejected(Play(events).value)
  {
    if events != [] {
      var front := events[..|events| - 1];
      NothingRejected(front);
      assert !Concerns(HonestRetry, events[|events| - 1]);
      NextRejectsNothing(Play(front).value, events[|events| - 1]);
    }
    hide Next, Enabled, Concerns;
  }

  lemma NextRejectsNothing(w: World, e: Event)
    requires NoneRejected(w) && Enabled(w, e) && !Concerns(HonestRetry, e)
    ensures NoneRejected(Next(w, e))
  {
    hide IsRetryableError, Declined, After, Finish, Record, Report, WithWorker, NewWorkers;
    match e
    case Top(j, _, _) =>
      FinishKeepsSwaps(w, j, TimedOut);
      FinishKeepsSwaps(w, j, Failed);
      AfterKeepsSwaps(w, j, NotSold(false));
    case Decline(j, message) => AfterKeepsSwaps(w, j, NotSold(IsRetryableError(message)));
    case Answer(j, reply) =>
      if reply.Error? {
        RetryableMeaning(reply.message);
      }
      AfterKeepsSwaps(w, j, Sold(w.jobs[j].tx.value));
      AfterKeepsSwaps(w, j, NotSold(false));
    case Status(j, confirmed) =>
      AfterKeepsSwaps(w, j, if confirmed then Sold(w.jobs[j].tx.value) else NotSold(false));
    case Timeout(j) => RecordKeepsSwaps(w, j, TimedOut);
    case _ =>
  }

  /** The world of a single emergency run that has pulled its first position. */
  function Started(keys: seq<Key>): World
    requires keys != []
  {
    World([FirstRun(keys)], [FirstJob(keys)], [], map[], map[], [])
  }

  function FirstRun(keys: seq<Key>): Run {
    Run(keys, 1, 1, WithWorker(NewWorkers(|keys|), 0, true), false, false, map[])
  }

  function FirstJob(keys: seq<Key>): Job
    requires keys != []
  {
    Job(0, 0, 0, keys[0], 0, AtTop, None, [], None)
  }

  lemma StartOne(keys: seq<Key>)
    requires keys != []
    ensures Play([Begin(keys, Emergency), Pull(0, 0)]) == Some(Started(keys))
  {
    hide Play, Next, Enabled, Begun, Started;
    var begin := Begin(keys, Emergency);
    BeginFirst(keys);
    PlayOne([], begin);
    assert [] + [begin] == [begin];
    PullFirst(keys);
    PlayOne([begin], Pull(0, 0));
    assert [begin] + [Pull(0, 0)] == [begin, Pull(0, 0)];
  }

  /** A run that has begun and pulled nothing yet. */
  function Begun(keys: seq<Key>): World {
    World([Run(keys, 1, 0, NewWorkers(|keys|), false, false, map[])], [], [], map[], map[], [])
  }

  lemma BeginFirst(keys: seq<Key>)
    ensures Play([]) == Some(Fresh) && Enabled(Fresh, Begin(keys, Emergency))
    ensures Next(Fresh, Begin(keys, Emergency)) == Begun(keys)
  {
  }

  lemma PullFirst(keys: seq<Key>)
    requires keys != []
    ensures Enabled(Begun(keys), Pull(0, 0)) && Next(Begun(keys), Pull(0, 0)) == Started(keys)
  {
    assert Begun(keys).runs[0 := FirstRun(keys)] == [FirstRun(keys)];
    assert [] + [FirstJob(keys)] == [FirstJob(keys)];
  }

  /** A snapshot that lists a position twice can sell it twice. */
  lemma DuplicateKeysSellTwice(key: Key)
    ensures var events := [Begin([key, key], Emergency), Pull(0, 0)] + [Pull(0, 1)] + Sale(0, 0) + Sale(1, 1);
      && Play(events).Some? && SoldSinceClear(Play(events).value.log, key) == 2
      && forall a :: a != DistinctKeys ==> Always(events, a)
  {
    hide SoldSinceClear, Play, Always, Next;
    var start := [Begin([key, key], Emergency), Pull(0, 0)];
    StartOne([key, key]);
    PullSecond(key);
    PlayOne(start, Pull(0, 1));
    SaleLands(start + [Pull(0, 1)], 0);
    SaleLands(start + [Pull(0, 1)] + Sale(0, 0), 1);
    TwoSells([], key);
    NoneSold(key);
    assert [] + [Sell(key)] == [Sell(key)];
    forall a: Assumption | a != DistinctKeys
      ensures Always(start + [Pull(0, 1)] + Sale(0, 0) + Sale(1, 1), a)
    {
      Unconcerned(start + [Pull(0, 1)] + Sale(0, 0) + Sale(1, 1), a);
    }
  }

  lemma PullSecond(key: Key)
    ensures var w := Started([key, key]);
      && Enabled(w, Pull(0, 1))
      && Next(w, Pull(0, 1)) == w.(runs := [FirstRun([key, key]).(cursor := 2, workers := [true, true])],
                                   jobs := [FirstJob([key, key]), FirstJob([key, key]).(index := 1, worker := 1)])
  {
    var run := FirstRun([key, key]);
    assert run.workers == [true, false];
    assert WithWorker(run.workers, 1, true) == [true, true];
    assert [run][0 := run.(cursor := 2, workers := [true, true])] == [run.(cursor := 2, workers := [true, true])];
  }

  lemma AlwaysMore(events: seq<Event>, a: Assumption, e: Event)
    requires Always(events, a) && (Play(events).Some? ==> Holds(a, Play(events).value, e))
    ensures Always(events + [e], a)
  {
    assert (events + [e])[..|events + [e]| - 1] == events;
    hide Play, Holds;
  }

  /** The two jobs of such a run, after the first has sold the position. */
  function SoldOfTwo(key: Key): World {
    AfterSale(Started([key, key]).(runs := [FirstRun([key, key]).(cursor := 2, workers := [true, true])],
                                   jobs := [FirstJob([key, key]), FirstJob([key, key]).(index := 1, worker := 1)]), 0)
  }

  lemma SecondVerdictOverwrites(key: Key)
    ensures var w := SoldOfTwo(key); var told := Next(w, Answer(0, Signed)); var timeout := Top(1, true, false);
      && Enabled(w, Answer(0, Signed)) && HasLanded(w, 0) && Enabled(told, timeout)
      && |Next(told, timeout).runs| == 1 && ClosedOnce(Next(told, timeout), 0, key, 0)
      && ResultOf(Next(told, timeout).runs[0].results, key) == TimedOut
  {
    var w := SoldOfTwo(key);
    var told := Next(w, Answer(0, Signed));
    assert told == Finish(w, 0, Closed(0));
    assert told.jobs[0].fired == [Closed(0)] && told.jobs[1] == w.jobs[1] && |told.runs| == 1;
    assert Next(told, Top(1, true, false)) == Finish(told, 1, TimedOut);
  }

  /** A snapshot that lists a position twice can miscount it: sold and reported closed, it is summed up as timed out. */
  lemma DuplicateKeysMiscount(key: Key)
    ensures
      var events := [Begin([key, key], Emergency), Pull(0, 0)] + [Pull(0, 1)] + Sale(0, 0) + [Answer(0, Signed)]
                    + [Top(1, true, false)];
      && Play(events).Some? && |Play(events).value.runs| == 1 && ClosedOnce(Play(events).value, 0, key, 0)
      && ResultOf(Play(events).value.runs[0].results, key) == TimedOut
      && forall a :: a != DistinctKeys ==> Always(events, a)
  {
    hide Play, Always, Next;
    var start := [Begin([key, key], Emergency), Pull(0, 0)] + [Pull(0, 1)];
    var sold := start + Sale(0, 0);
    StartOne([key, key]);
    PullSecond(key);
    PlayOne([Begin([key, key], Emergency), Pull(0, 0)], Pull(0, 1));
    SaleLands(start, 0);
    SecondVerdictOverwrites(key);
    PlayOne(sold, Answer(0, Signed));
    PlayOne(sold + [Answer(0, Signed)], Top(1, true, false));
    SoldFairly(key);
  }

  /** Nothing but the snapshot was wrong. */
  lemma SoldFairly(key: Key)
    requires Play([Begin([key, key], Emergency), Pull(0, 0)] + [Pull(0, 1)] + Sale(0, 0)) == Some(SoldOfTwo(key))
    ensures
      var events := [Begin([key, key], Emergency), Pull(0, 0)] + [Pull(0, 1)] + Sale(0, 0) + [Answer(0, Signed)]
                    + [Top(1, true, false)];
      forall a :: a != DistinctKeys ==> Always(events, a)
  {
    hide Play, Always, Next;
    var sold := [Begin([key, key], Emergency), Pull(0, 0)] + [Pull(0, 1)] + Sale(0, 0);
    SecondVerdictOverwrites(key);
    forall a: Assumption | a != DistinctKeys
      ensures Always(sold + [Answer(0, Signed)] + [Top(1, true, false)], a)
    {
      Unconcerned(sold, a);
      AlwaysMore(sold, a, Answer(0, Signed));
      AlwaysMore(sold + [Answer(0, Signed)], a, Top(1, true, false));
    }
  }

  /** The only job so far, after its swap landed. */
  function SoldJob(key: Key): Job {
    FirstJob([key]).(pc := Swapping, tx := Some(0))
  }

  /** The world in which a single run has sold its only position. */
  function SoldOnce(key: Key): World {
    World([FirstRun([key])], [SoldJob(key)], [Tx(0, Landed)], map[key := 0], map[], [Sell(key)])
  }

  lemma SellOnce(key: Key)
    ensures Play([Begin([key], Emergency), Pull(0, 0)] + Sale(0, 0)) == Some(SoldOnce(key))
  {
    StartOne([key]);
    SaleLands([Begin([key], Emergency), Pull(0, 0)], 0);
    assert AfterSale(Started([key]), 0) == SoldOnce(key);
    hide Play;
  }

  /** A restart that loads tombstones older than the last attempt can sell a position twice. */
  lemma StaleTombstonesSellTwice(key: Key)
    ensures var begin := Begin([key], Emergency);
      var events := [begin, Pull(0, 0)] + Sale(0, 0) + [Restart(true)] + [begin] + [Pull(1, 0)] + Sale(1, 1);
      && Play(events).Some? && SoldSinceClear(Play(events).value.log, key) == 2
      && forall a :: a != SettledDisk ==> Always(events, a)
  {
    hide SoldSinceClear, Play, Always, Next, Enabled;
    var begin := Begin([key], Emergency);
    var sold := [begin, Pull(0, 0)] + Sale(0, 0);
    SellOnce(key);
    RestartAndPull(key);
    PlayOne(sold, Restart(true));
    PlayOne(sold + [Restart(true)], begin);
    PlayOne(sold + [Restart(true)] + [begin], Pull(1, 0));
    SaleLands(sold + [Restart(true)] + [begin] + [Pull(1, 0)], 1);
    TwoSells([], key);
    NoneSold(key);
    assert [] + [Sell(key)] == [Sell(key)];
    forall a: Assumption | a != SettledDisk
      ensures Always(sold + [Restart(true)] + [begin] + [Pull(1, 0)] + Sale(1, 1), a)
    {
      Unconcerned(sold + [Restart(true)] + [begin] + [Pull(1, 0)] + Sale(1, 1), a);
    }
  }

  lemma RestartAndPull(key: Key)
    ensures var w := SoldOnce(key); var begin := Begin([key], Emergency);
      var restarted := w.(memory := map[], jobs := [SoldJob(key).(pc := Lost)]);
      var begun := restarted.(runs := [FirstRun([key]), Begun([key]).runs[0]]);
      && Enabled(w, Restart(true)) && Next(w, Restart(true)) == restarted
      && Enabled(restarted, begin) && Next(restarted, begin) == begun
      && Enabled(begun, Pull(1, 0))
      && Next(begun, Pull(1, 0)) == begun.(runs := [FirstRun([key]), FirstRun([key])],
                                        jobs := [SoldJob(key).(pc := Lost), FirstJob([key]).(run := 1)])
  {
    assert Kill([SoldJob(key)]) == [SoldJob(key).(pc := Lost)];
  }

  /** A retryable error after a swap that did land sells the position again. */
  lemma DishonestRetrySellsTwice(key: Key)
    ensures var events := [Begin([key], Emergency), Pull(0, 0)] + Sale(0, 0) + [Answer(0, Error("429"))] + [Wake(0)]
      + Sale(0, 1);
      && Play(events).Some? && SoldSinceClear(Play(events).value.log, key) == 2
      && forall a :: a != HonestRetry ==> Always(events, a)
  {
    hide SoldSinceClear, Play, Always, Next, Enabled, IsRetryableError;
    var begin := Begin([key], Emergency);
    var answer := Answer(0, Error("429"));
    var sold := [begin, Pull(0, 0)] + Sale(0, 0);
    SellOnce(key);
    AnswerAndWake(key);
    PlayOne(sold, answer);
    PlayOne(sold + [answer], Wake(0));
    SaleLands(sold + [answer] + [Wake(0)], 0);
    TwoSells([], key);
    NoneSold(key);
    assert [] + [Sell(key)] == [Sell(key)];
    forall a: Assumption | a != HonestRetry
      ensures Always(sold + [answer] + [Wake(0)] + Sale(0, 1), a)
    {
      Unconcerned(sold + [answer] + [Wake(0)] + Sale(0, 1), a);
    }
  }

  lemma AnswerAndWake(key: Key)
    ensures var w := SoldOnce(key); var answer := Answer(0, Error("429"));
      var asleep := w.(jobs := [SoldJob(key).(pc := Sleeping)]);
      && Enabled(w, answer) && Next(w, answer) == asleep && Enabled(asleep, Wake(0))
      && Next(asleep, Wake(0)) == w.(jobs := [SoldJob(key).(pc := AtTop, attempt := 1)])
  {
    RateLimitIsRetryable();
    hide IsRetryableError;
  }

  /** The world in which the first swap was answered with a retryable error and the next attempt is due. */
  function Retrying(key: Key): World {
    World([FirstRun([key])], [FirstJob([key]).(attempt := 1, tx := Some(0))], [Tx(0, Rejected)],
          map[key := 0], map[], [])
  }

  lemma RejectAndWake(key: Key)
    ensures var w := AfterAttempt(Started([key]), 0); var answer := Answer(0, Error("429"));
      && Enabled(w, answer)
      && Enabled(Next(w, answer), Wake(0)) && Next(Next(w, answer), Wake(0)) == Retrying(key)
  {
    RateLimitIsRetryable();
    hide IsRetryableError;
    var w := AfterAttempt(Started([key]), 0);
    assert Discarded(w, 0).txs == [Tx(0, Rejected)];
    assert After(Discarded(w, 0), 0, NotSold(true)).jobs == [w.jobs[0].(pc := Sleeping)];
  }

  /** So does a retryable error about a swap that lands later. */
  lemma LateLandingSellsTwice(key: Key)
    ensures
      var events := [Begin([key], Emergency), Pull(0, 0)] + Attempt(0) + [Answer(0, Error("429"))] + [Wake(0)]
        + Attempt(0)
                    + [Land(0)] + [Land(1)];
      && Play(events).Some? && SoldSinceClear(Play(events).value.log, key) == 2
      && forall a :: a != HonestRetry ==> Always(events, a)
  {
    hide SoldSinceClear, Play, Always, Next, Enabled, IsRetryableError;
    var start := [Begin([key], Emergency), Pull(0, 0)];
    var answer := Answer(0, Error("429"));
    var woken := start + Attempt(0) + [answer] + [Wake(0)];
    forall a: Assumption | a != HonestRetry
      ensures Always(woken + Attempt(0) + [Land(0)] + [Land(1)], a)
    {
      Unconcerned(woken + Attempt(0) + [Land(0)] + [Land(1)], a);
    }
    hide Concerns, FirstRun, Begun, Attempt;
    StartOne([key]);
    AttemptSends(start, 0);
    RejectAndWake(key);
    PlayOne(start + Attempt(0), answer);
    PlayOne(start + Attempt(0) + [answer], Wake(0));
    AttemptSends(woken, 0);
    BothLand(woken + Attempt(0), key);
    NoneSold(key);
  }

  /** A second run of the position, begun after the first was told that its pending swap is final. */
  function ToldFinal(key: Key): World {
    World([FirstRun([key]).(results := map[key := Closed(0)], workers := [false]), FirstRun([key])],
          [FirstJob([key]).(pc := Done(Closed(0)), tx := Some(0), fired := [Closed(0)], recorded := Some(Closed(0))),
           FirstJob([key]).(run := 1)],
          [Tx(0, Pending)], map[], map[], [Clear(key)])
  }

  /** The world in which the first run was told so. */
  function ToldOnce(key: Key): World {
    ToldFinal(key).(runs := [ToldFinal(key).runs[0]], jobs := [ToldFinal(key).jobs[0]])
  }

  lemma AnswerFinal(key: Key)
    ensures var w := AfterAttempt(Started([key]), 0);
      Enabled(w, Answer(0, Signed)) && Next(w, Answer(0, Signed)) == ToldOnce(key)
  {
    var w := AfterAttempt(Started([key]), 0);
    var finished := w.jobs[0].(pc := Done(Closed(0)));
    var confirmed := Confirm(WithJob(w, 0, finished), key, Closed(0));
    assert confirmed == w.(jobs := [finished], memory := map[], log := [Clear(key)]);
    var reported := Report(confirmed, 0, Closed(0));
    assert Fire([], Closed(0)) == [Closed(0)];
    assert reported.jobs == [finished.(fired := [Closed(0)])];
    assert WithWorker(FirstRun([key]).workers, 0, false) == [false];
    assert Record(reported, 0, Closed(0)) == ToldOnce(key);
  }

  lemma BeginAgain(key: Key)
    ensures var w := ToldOnce(key); var begin := Begin([key], Emergency);
      && Enabled(w, begin) && Enabled(Next(w, begin), Pull(1, 0))
      && Next(Next(w, begin), Pull(1, 0)) == ToldFinal(key)
  {
    var w := ToldOnce(key);
    assert Next(w, Begin([key], Emergency)) == w.(runs := [w.runs[0], Begun([key]).runs[0]]);
    assert [w.runs[0], Begun([key]).runs[0]][1 := FirstRun([key])] == ToldFinal(key).runs;
  }

  /** A swap reported as final before it lands lets a second run sell the position again. */
  lemma DishonestSuccessSellsTwice(key: Key)
    ensures
      var begin := Begin([key], Emergency);
      var events := [begin, Pull(0, 0)] + Attempt(0) + [Answer(0, Signed)] + [begin] + [Pull(1, 0)] + Attempt(1)
                    + [Land(0)] + [Land(1)];
      && Play(events).Some? && SoldSinceClear(Play(events).value.log, key) == 2
      && forall a :: a != HonestSuccess ==> Always(events, a)
  {
    hide SoldSinceClear, Play, Always, Next, Enabled;
    var begin := Begin([key], Emergency);
    var sent := [begin, Pull(0, 0)] + Attempt(0);
    var pulled := sent + [Answer(0, Signed)] + [begin] + [Pull(1, 0)];
    forall a: Assumption | a != HonestSuccess
      ensures Always(pulled + Attempt(1) + [Land(0)] + [Land(1)], a)
    {
      Unconcerned(pulled + Attempt(1) + [Land(0)] + [Land(1)], a);
    }
    hide Concerns, FirstRun, Begun, Attempt;
    StartOne([key]);
    AttemptSends([begin, Pull(0, 0)], 0);
    AnswerFinal(key);
    BeginAgain(key);
    PlayOne(sent, Answer(0, Signed));
    PlayOne(sent + [Answer(0, Signed)], begin);
    PlayOne(sent + [Answer(0, Signed)] + [begin], Pull(1, 0));
    AttemptSends(pulled, 1);
    BothLand(pulled + Attempt(1), key);
    NoneSold(key);
  }

  lemma ContainsItself(s: string)
    ensures Contains(s, s)
  {
    assert s <= s[0..];
  }

  lemma RateLimitIsRetryable()
    ensures IsRetryableError("429")
  {
    hide Contains;
    assert "429"[..2] == "42" && "42"[..1] == "4" && "4"[..0] == "";
    assert ToLower("") == "";
    assert ToLower("4") == "4";
    assert ToLower("42") == "42";
    assert ToLower("429") == "429";
    ContainsItself("429");
  }
}
