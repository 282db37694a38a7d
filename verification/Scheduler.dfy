/**
 * The scheduler's FIFO mutex (src/trading/scheduler.ts), and every interleaving of `runExclusive` calls on it.
 * A tick submits its orders inside `runExclusive`, so a critical section is one tick's order submission.
 */
module Scheduler {
  import opened Prelude

  /** One `runExclusive` call. */
  type Call = nat

  /** The lock flag and the callers whose promise is still unresolved. */
  datatype Lock = Lock(locked: bool, queue: seq<Call>)

  /** What acquire does; the caller is granted the lock at once exactly when it was free. */
  function AfterAcquire(lock: Lock, call: Call): Lock {
    if lock.locked then lock.(queue := lock.queue + [call]) else lock.(locked := true)
  }

  /** What release does: hand the held lock to the first waiter, or free it. */
  function AfterRelease(lock: Lock): Lock {
    if lock.queue != [] then lock.(queue := lock.queue[1..]) else lock.(locked := false)
  }

  function Woken(lock: Lock): seq<Call> {
    lock.queue[..if lock.queue == [] then 0 else 1]
  }

  class Mutex {
    var locked: bool
    var queue: seq<Call>

    constructor ()
      ensures View() == Lock(false, [])
    {
      locked, queue := false, [];
    }

    function View(): Lock
      reads this
    {
      Lock(locked, queue)
    }

    method Acquire(call: Call) returns (resolved: bool)
      modifies this
      ensures View() == AfterAcquire(old(View()), call)
      ensures resolved == !old(locked)
    {
      if !locked {
        locked := true;
        return true;
      }
      queue := queue + [call];
      resolved := false;
    }

    method Release() returns (next: Option<Call>)
      modifies this
      ensures View() == AfterRelease(old(View()))
      ensures Woken(old(View())) == if next.Some? then [next.value] else []
    {
      if |queue| > 0 {
        next := Some(queue[0]);
        queue := queue[1..];
      } else {
        locked := false;
        next := None;
      }
    }
  }

  // ----- Every interleaving -----

  /**
   * `granted` are the calls whose acquire has resolved but whose section has not begun (the continuation is still
   * queued), `active` those inside their section. `arrived` and `started` record the order of events.
   */
  datatype World = World(lock: Lock, granted: seq<Call>, active: seq<Call>, arrived: seq<Call>, started: seq<Call>)

  datatype Event =
    | Arrive(call: Call)   // runExclusive is called and runs acquire
    | Begin(call: Call)    // its awaited acquire continues: the section starts
    | Finish(call: Call)   // the section settles, normally or by throwing, and releases

  const Initial := World(Lock(false, []), [], [], [], [])

  predicate Enabled(w: World, e: Event) {
    match e
    case Arrive(call) => call !in w.arrived
    case Begin(call) => call in w.granted
    case Finish(call) => call in w.active
  }

  function Without(s: seq<Call>, call: Call): seq<Call> {
    if s == [] then [] else if s[0] == call then s[1..] else [s[0]] + Without(s[1..], call)
  }

  function Step(w: World, e: Event): World {
    match e
    case Arrive(call) =>
      w.(lock := AfterAcquire(w.lock, call), arrived := w.arrived + [call],
         granted := if w.lock.locked then w.granted else w.granted + [call])
    case Begin(call) =>
      w.(granted := Without(w.granted, call), active := w.active + [call], started := w.started + [call])
    case Finish(call) =>
      w.(lock := AfterRelease(w.lock), active := Without(w.active, call), granted := w.granted + Woken(w.lock))
  }

  ghost predicate Reachable(w: World, events: seq<Event>)
    decreases |events|
  {
    if events == [] then w == Initial
    else
      var m := |events| - 1;
      exists before :: Reachable(before, events[..m]) && Enabled(before, events[m]) && w == Step(before, events[m])
  }

  /** The lock has exactly one holder when it is held, and the calls pass through it in the order they arrived. */
  predicate Fair(w: World) {
    && |w.granted| + |w.active| == (if w.lock.locked then 1 else 0)
    && w.arrived == w.started + w.granted + w.lock.queue
    && (w.lock.queue != [] ==> w.lock.locked)
  }

  lemma StepKeepsFair(w: World, e: Event)
    requires Fair(w) && Enabled(w, e)
    ensures Fair(Step(w, e))
  {
  }

  /**
   * Over any interleaving of runExclusive calls, at most one section is active, sections start in exactly the order
   * the calls arrived, a waiting call implies the lock is held, and a held lock has a holder that will release it.
   */
  lemma {:induction false} MutualExclusion(w: World, events: seq<Event>)
    requires Reachable(w, events)
    ensures |w.active| <= 1
    ensures w.started <= w.arrived
    ensures w.lock.queue != [] ==> w.lock.locked && |w.granted| + |w.active| == 1
    ensures Fair(w)
    decreases |events|
  {
    hide Step, Enabled;
    if events != [] {
      var m := |events| - 1;
      var before :| Reachable(before, events[..m]) && Enabled(before, events[m]) && w == Step(before, events[m]);
      MutualExclusion(before, events[..m]);
      StepKeepsFair(before, events[m]);
    }
    assert w.arrived == w.started + (w.granted + w.lock.queue);
  }
}
