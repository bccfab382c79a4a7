/** The request watcher on its own: a counter, a stop channel made anew by each start, and a listening loop. */
module RequestWatching {
  import opened GoInt
  import opened Pipeline

  /** What the loop's select comes up with: a request, a closed request channel, or a closed stop channel. */
  datatype Tick = Request | RequestsClosed | StopClosed

  /** Requests received before the loop ends. */
  function Heard(ticks: seq<Tick>): (n: nat)
    ensures n <= |ticks|
    ensures forall i :: 0 <= i < n ==> ticks[i].Request?
    ensures n < |ticks| ==> !ticks[n].Request?
  {
    if ticks == [] || !ticks[0].Request? then 0 else 1 + Heard(ticks[1..])
  }

  class StopChannel {
    var closed: bool

    constructor ()
      ensures !closed
    {
      closed := false;
    }
  }

  class RequestWatcher {
    var stop: StopChannel?
    var stopOnce: bool
    var requestCount: uint64
    /** The stop channels replaced so far, true where closed. */
    ghost var replaced: seq<bool>
    /** The goroutines started so far. */
    ghost var routines: seq<Routine>

    /** The once-guard has fired exactly when the current stop channel is closed, so no stop closes it again. */
    ghost predicate Valid()
      reads this, stop
    {
      if stop == null then !stopOnce && replaced == [] else stopOnce == stop.closed
    }

    /** The watcher as the pipeline sees it. */
    ghost function View(): Watcher
      reads this, stop
    {
      Watcher(requestCount, if stop == null then [] else replaced + [stop.closed], routines)
    }

    constructor ()
      ensures Valid() && stop == null && View() == Watcher(0, [], [])
    {
      stop, stopOnce, requestCount, replaced, routines := null, false, 0, [], [];
    }

    /** Resets the counter, makes a new stop channel, and starts one more goroutine that listens to it. */
    method Start()
      requires Valid()
      modifies this
      ensures Valid() && stop != null && fresh(stop)
      ensures View() == StartWatcher(old(View()))
      ensures routines == old(routines) + [Receiving(if old(stop) == null then 0 else |old(replaced)| + 1)]
    {
      replaced := if stop == null then [] else replaced + [stop.closed];
      requestCount := 0;
      stopOnce := false;
      stop := new StopChannel();
      routines := routines + [Receiving(|replaced|)];
    }

    /** Closes the stop channel unless that has been done; before any start there is none to close. */
    method Stop()
      requires Valid() && stop != null
      modifies this`stopOnce, stop
      ensures Valid() && stop == old(stop) && stop.closed
      ensures View() == StopWatcher(old(View()))
    {
      if !stopOnce {
        stop.closed := true;
        stopOnce := true;
      }
    }

    /** The goroutine started by `Start`, as the only one running: it counts every request up to the first closed
        channel, and none after it. */
    method Listen(ticks: seq<Tick>) returns (returned: bool)
      modifies this`requestCount
      ensures returned <==> Heard(ticks) < |ticks|
      ensures requestCount == WrapU(old(requestCount) + Heard(ticks))
    {
      hide WrapU;
      WrapUOnce(requestCount);
      var next := 0;
      while next < |ticks|
        invariant 0 <= next <= |ticks|
        invariant forall i :: 0 <= i < next ==> ticks[i].Request?
        invariant requestCount == WrapU(old(requestCount) + next)
      {
        match ticks[next] {
          case RequestsClosed =>
            return true;
          case StopClosed =>
            return true;
          case Request =>
            WrapUStep(old(requestCount) + next);
            requestCount := WrapU(requestCount + 1);
        }
        next := next + 1;
      }
      return false;
    }
  }

  lemma WrapUOnce(x: uint64)
    ensures WrapU(x) == x
  {
  }

  lemma WrapUStep(x: int)
    ensures WrapU(WrapU(x) + 1) == WrapU(x + 1)
  {
    var q := x / TWO64;
    assert x + 1 == (WrapU(x) + 1) + q * TWO64;
    assert (WrapU(x) + 1 + q * TWO64) % TWO64 == (WrapU(x) + 1) % TWO64;
  }

  /** `n` rounds of a goroutine's loop: receive a request, write the counter back. */
  function Rounds(c: Counter, r: nat, n: nat): Counter
    requires r < |c.watcher.routines| && c.watcher.routines[r].Receiving? && c.watcher.stops != [] && n <= c.buffered
    ensures r < |Rounds(c, r, n).watcher.routines| && Rounds(c, r, n).watcher.routines[r].Receiving?
    decreases n
  {
    if n == 0 then c else Rounds(RoutineStep(RoutineStep(c, false, r, Receive), false, r, Store), r, n - 1)
  }

  /** The pipeline's goroutine does what the loop does: undisturbed, `n` rounds take `n` requests out of the buffer and
      add them to the counter. */
  lemma {:induction false} RoundsCount(c: Counter, r: nat, n: nat)
    requires r < |c.watcher.routines| && c.watcher.routines[r].Receiving? && c.watcher.stops != [] && n <= c.buffered
    ensures var c' := Rounds(c, r, n);
            && c'.buffered + n == c.buffered && c'.watcher.count == c.watcher.count + n
            && c'.watcher.stops == c.watcher.stops
    decreases n
  {
    if n > 0 {
      RoundsCount(RoutineStep(RoutineStep(c, false, r, Receive), false, r, Store), r, n - 1);
    }
  }

  /** A stop and a start that does not wait for the goroutine to exit, then both goroutines at work: the old one and the
      new one each take a request, and write the same number back. */
  function Overlap(c: Counter, counted: nat): Counter
    requires Overlaps(c)
  {
    var first := |c.watcher.routines| - 1;
    var second := first + 1;
    var c1 := RestartCounter(c.(watcher := StopWatcher(c.watcher)), counted);
    var c2 := RoutineStep(c1, false, first, Receive);
    var c3 := RoutineStep(c2, false, second, Receive);
    RoutineStep(RoutineStep(c3, false, first, Store), false, second, Store)
  }

  /** The watcher listens, and two requests wait. */
  predicate Overlaps(c: Counter) {
    && c.watcher.routines != [] && c.watcher.stops != [] && c.buffered >= 2
    && c.watcher.routines[|c.watcher.routines| - 1].Receiving?
  }

  /** When a start does not find the previous goroutine gone, two requests can be taken and only one counted. */
  lemma OverlapLosesOne(c: Counter, counted: nat)
    requires Overlaps(c)
    ensures var c' := Overlap(c, counted);
            !c'.sole && c'.buffered == c.buffered - 2 && c'.watcher.count == 1
  {
    var w := StopWatcher(c.watcher);
    assert !AllExited(w) by { assert !w.routines[|w.routines| - 1].Exited?; }
  }

  /** A stop, a start that does not wait for the goroutine to exit, the old goroutine's late write, and another stop at
      which both goroutines exit. */
  function LateStore(c: Counter, counted: nat): Counter
    requires StoresLate(c)
  {
    var first := |c.watcher.routines| - 1;
    var second := first + 1;
    var c1 := RestartCounter(c.(watcher := StopWatcher(c.watcher)), counted);
    var c2 := RoutineStep(c1, false, first, Store);
    var c3 := c2.(watcher := StopWatcher(c2.watcher));
    RoutineStep(RoutineStep(c3, false, first, Exit), false, second, Exit)
  }

  /** The watcher's only goroutine has taken a request and has yet to write the counter back. */
  predicate StoresLate(c: Counter) {
    && c.watcher.routines != [] && c.watcher.stops != []
    && c.watcher.routines[|c.watcher.routines| - 1].Storing?
    && forall r :: 0 <= r < |c.watcher.routines| - 1 ==> c.watcher.routines[r].Exited?
  }

  /** The proviso on the count is needed: a late write brings the old count over the restart, so that with no request
      sent since the start the count is beyond any capacity up to what had been read. */
  lemma LateStoreBreaksCount(c: Counter, counted: nat, capacity: nat)
    requires StoresLate(c) && c.watcher.routines[|c.watcher.routines| - 1].read + 1 > capacity
    ensures var c' := LateStore(c, counted);
            AllExited(c'.watcher) && !c'.sole && c'.watcher.count > (counted - c'.countedThen) + capacity
  {
    var w := StopWatcher(c.watcher);
    assert !AllExited(w) by { assert !w.routines[|w.routines| - 1].Exited?; }
  }
}
