/** Which request limits are installed, who empties the request channel, and when the agent shuts down, in every
    reachable state of the pipeline. */
module PipelineLimits {
  import opened Semaphores
  import opened Pipeline
  import opened PipelineLife
  import opened PipelineJobs
  import opened PipelineRates

  // ---------------------------------------------------------------- limits

  /** The announcement and the firing that ended generation `g` are on record. */
  predicate Ended(marks: seq<Mark>, g: nat) {
    2 * g + 1 < |marks| && marks[2 * g].Announced? && marks[2 * g + 1].Fired?
  }

  /** The limit that the end of generation `g` calls for. */
  function CalledFor(cfg: Config, marks: seq<Mark>, g: nat): nat
    requires Ended(marks, g)
  {
    LimitFor(cfg, marks[2 * g].rate, marks[2 * g + 1].rpm)
  }

  predicate Changing(phase: Phase) {
    phase.Restarting? || phase.Resizing? || phase.AwaitingIdle?
  }

  /** The agent's variables hold what it was last told. */
  predicate Informed(cfg: Config, a: Agent, gen: nat) {
    && (Stage(a) >= 1 ==> |a.marks| > 2 * gen && a.marks[2 * gen].Announced? && a.marks[2 * gen].rate == a.rate)
    && (Changing(a.phase) ==> Ended(a.marks, gen) && a.phase.newMax == CalledFor(cfg, a.marks, gen))
  }

  predicate OnRecord(cfg: Config, marks: seq<Mark>, chan: Chan, g: nat)
    requires g >= 1
  {
    Ended(marks, g - 1) && chan.capacity == CalledFor(cfg, marks, g - 1)
  }

  /** Every channel but the first has the capacity that the end of the generation before called for. */
  ghost predicate Installed(cfg: Config, chans: seq<Chan>, marks: seq<Mark>) {
    && chans != [] && chans[0].capacity == cfg.maxRequests
    && forall g :: 1 <= g < |chans| ==> OnRecord(cfg, marks, chans[g], g)
  }

  ghost predicate Limits(s: State) {
    && |s.pool.sema.chans| == s.pool.gen + 1
    && Informed(s.cfg, s.agent, s.pool.gen)
    && Installed(s.cfg, s.pool.sema.chans, s.agent.marks)
  }

  lemma InstalledStays(cfg: Config, chans: seq<Chan>, marks: seq<Mark>, chans': seq<Chan>, marks': seq<Mark>)
    requires Installed(cfg, chans, marks) && marks <= marks' && |chans'| == |chans|
    requires forall c :: 0 <= c < |chans| ==> chans'[c].capacity == chans[c].capacity
    ensures Installed(cfg, chans', marks')
  {
    hide LimitFor;
  }

  /** A worker moves tokens only, and tells the agent something only at the end of a generation. */
  lemma StepCapacities(s: State, i: nat, act: Act)
    requires Enabled(s, Step(i, act))
    ensures var (chans, chans') := (s.pool.sema.chans, StepOf(s, i, act).pool.sema.chans);
            |chans'| == |chans| && forall c :: 0 <= c < |chans| ==> chans'[c].capacity == chans[c].capacity
  {
    hide Done, CanAnswer, AgentAfter, PastAfter, ClosedAfter;
  }

  lemma StepKeepsLimits(s: State, i: nat, act: Act)
    requires Limits(s) && Staged(s) && Ways(s) && Enabled(s, Step(i, act)) && !Quiet(s.agent)
    ensures Limits(StepOf(s, i, act))
  {
    hide ActEnabled, NextWorker, PoolAfter, AgentAfter, PastAfter, ClosedAfter, OnItsWay, Reported, Installed;
    var s' := StepOf(s, i, act);
    StepCapacities(s, i, act);
    StepWay(s, i, act);
    StepHeard(s, i, act);
    InstalledStays(s.cfg, s.pool.sema.chans, s.agent.marks, s'.pool.sema.chans, s'.agent.marks);
  }

  lemma AgentKeepsLimits(s: State, move: AgentAct)
    requires Limits(s) && Staged(s) && Closings(s.agent, s.closed) && Enabled(s, AgentDoes(move))
    ensures Limits(AgentStep(s, move))
  {
    hide RestartCounter, StopWatcher, CloseOne, LimitFor, Installed;
    var s' := AgentStep(s, move);
    InstalledStays(s.cfg, s.pool.sema.chans, s.agent.marks, s'.pool.sema.chans, s'.agent.marks);
  }

  lemma InstalledAppend(cfg: Config, chans: seq<Chan>, marks: seq<Mark>, c: Chan)
    requires Installed(cfg, chans, marks)
    requires Ended(marks, |chans| - 1) && c.capacity == CalledFor(cfg, marks, |chans| - 1)
    ensures Installed(cfg, chans + [c], marks)
  {
    hide LimitFor;
    var more := chans + [c];
    forall g | 1 <= g < |more| ensures OnRecord(cfg, marks, more[g], g) {
      assert g < |chans| ==> more[g] == chans[g];
    }
  }

  lemma ResizeKeepsLimits(s: State)
    requires Limits(s) && Closings(s.agent, s.closed) && Enabled(s, FinishResize)
    ensures Limits(Apply(s, FinishResize))
  {
    hide Installed, CalledFor, Ended;
    InstalledAppend(s.cfg, s.pool.sema.chans, s.agent.marks, Chan(s.agent.phase.newMax, 0));
  }

  lemma EventKeepsLimits(s: State, e: Event)
    requires Life(s) && Closings(s.agent, s.closed) && Staged(s) && Announcements(s) && Limits(s) && Enabled(s, e)
    ensures Limits(Apply(s, e))
  {
    hide StepOf, AgentStep, RoutineStep, ActEnabled, AgentEnabled, RoutineEnabled, CountIf, Installed, Marks, Ways,
      CanResize, Resized;
    match e {
      case Step(i, act) =>
        ActorIsLive(s, i, act);
        LiveMeansBusy(s, i);
        StepKeepsLimits(s, i, act);
      case AgentDoes(move) => AgentKeepsLimits(s, move);
      case FinishResize => ResizeKeepsLimits(s);
      case _ =>
    }
  }

  // ---------------------------------------------------------------- the request channel is attended to

  /** From each start of the request watcher to the next announcement's timer, its last goroutine listens. */
  predicate Watched(a: Agent) {
    || a.phase.Starting? || a.phase.Draining? || a.phase.Drained? || a.phase.Resizing? || a.phase.AwaitingIdle?
    || ((a.phase.Listening? || a.phase.Stopping?) && !a.timerArmed)
  }

  predicate Listens(w: Watcher) {
    && w.stops != [] && w.routines != [] && !w.stops[|w.stops| - 1]
    && (LastRoutine(w).Storing? || LastRoutine(w) == Receiving(|w.stops| - 1))
  }

  predicate Attended(s: State) {
    Watched(s.agent) ==> Listens(s.counter.watcher)
  }

  lemma RoutineKeepsListening(c: Counter, r: nat, tick: RoutineAct)
    requires RoutineEnabled(c, false, r, tick) && Listens(c.watcher)
    ensures Listens(RoutineStep(c, false, r, tick).watcher)
  {
  }

  lemma AgentKeepsAttended(s: State, move: AgentAct)
    requires Attended(s) && Closings(s.agent, s.closed) && Enabled(s, AgentDoes(move))
    ensures Attended(AgentStep(s, move))
  {
    hide CloseOne, LimitFor, AllExited;
  }

  lemma EventKeepsAttended(s: State, e: Event)
    requires Life(s) && Attended(s) && Closings(s.agent, s.closed) && Ways(s) && Enabled(s, e)
    ensures Attended(Apply(s, e))
  {
    hide AgentStep, RoutineStep, AgentEnabled, RoutineEnabled, CanResize, Resized, Listens, NextWorker, PoolAfter,
      AgentAfter, PastAfter, ClosedAfter, ActEnabled, OnItsWay, Reported, CountIf;
    match e {
      case Step(i, act) =>
        ActorIsLive(s, i, act);
        LiveMeansBusy(s, i);
        StepWay(s, i, act);
        StepHeard(s, i, act);
      case AgentDoes(move) =>
        AgentKeepsAttended(s, move);
      case RoutineDoes(r, tick) =>
        if Watched(s.agent) {
          RoutineKeepsListening(s.counter, r, tick);
        }
      case _ =>
    }
  }

  // ---------------------------------------------------------------- the watcher rests

  /** From the stop of the request watcher to its next start: while the timer runs, and until the restart. */
  predicate Resting(a: Agent) {
    a.timerArmed || a.phase.Restarting?
  }

  /** Every stop channel but the last is closed, and the last one too while the watcher is to rest; there is one
      goroutine for each, and it listens to one of them. While the last channel is open, the last goroutine ends only
      with the request channel closed and empty. */
  ghost predicate StopsOf(w: Watcher, resting: bool, closed: bool, buffered: nat) {
    && w.stops != [] && |w.routines| == |w.stops|
    && (forall k :: 0 <= k < |w.stops| - 1 ==> w.stops[k])
    && (resting ==> w.stops[|w.stops| - 1])
    && (forall r :: 0 <= r < |w.routines| && w.routines[r].Receiving? ==> w.routines[r].stop < |w.stops|)
    && (w.routines[|w.routines| - 1].Receiving? ==> w.routines[|w.routines| - 1].stop == |w.stops| - 1)
    && (!w.stops[|w.stops| - 1] && w.routines[|w.routines| - 1].Exited? ==> closed && buffered == 0)
  }

  ghost predicate Stops(s: State) {
    StopsOf(s.counter.watcher, Resting(s.agent), s.closed.requests, s.counter.buffered)
  }

  lemma AgentKeepsStops(s: State, move: AgentAct)
    requires Stops(s) && Closings(s.agent, s.closed) && Enabled(s, AgentDoes(move))
    ensures Stops(AgentStep(s, move))
  {
    hide LimitFor, AllExited;
  }

  lemma RoutineKeepsStops(c: Counter, resting: bool, closed: bool, r: nat, tick: RoutineAct)
    requires StopsOf(c.watcher, resting, closed, c.buffered) && RoutineEnabled(c, closed, r, tick)
    ensures var c' := RoutineStep(c, closed, r, tick); StopsOf(c'.watcher, resting, closed, c'.buffered)
  {
  }

  lemma EventKeepsStops(s: State, e: Event)
    requires Life(s) && Stops(s) && Closings(s.agent, s.closed) && Ways(s) && Enabled(s, e)
    ensures Stops(Apply(s, e))
  {
    hide AgentStep, RoutineStep, AgentEnabled, RoutineEnabled, CanResize, Resized, NextWorker, PoolAfter, AgentAfter,
      PastAfter, ClosedAfter, ActEnabled, OnItsWay, Reported, CountIf, StopsOf;
    match e {
      case Step(i, act) =>
        ActorIsLive(s, i, act);
        LiveMeansBusy(s, i);
        StepWay(s, i, act);
        StepHeard(s, i, act);
        WorkersKeepStops(s);
      case AgentDoes(move) => AgentKeepsStops(s, move);
      case RoutineDoes(r, tick) => RoutineKeepsStops(s.counter, Resting(s.agent), s.closed.requests, r, tick);
      case _ =>
    }
  }

  /** While workers are at work, the request channel is open. */
  lemma WorkersKeepStops(s: State)
    requires Stops(s) && !Quiet(s.agent) && Closings(s.agent, s.closed)
    ensures !s.closed.requests
    ensures forall buffered: nat, closed :: StopsOf(s.counter.watcher, Resting(s.agent), closed, buffered)
  {
  }

  // ---------------------------------------------------------------- shutting down

  predicate Halting(phase: Phase) {
    phase.Stopping? || phase.Closing? || phase.Stopped?
  }

  /** The agent shuts down only when its context is done, and the job channel is closed only after that. */
  predicate Halts(s: State) {
    (Halting(s.agent.phase) ==> s.done) && (s.jobsClosed ==> s.closed.results)
  }

  lemma EventKeepsHalts(s: State, e: Event)
    requires Life(s) && Halts(s) && Closings(s.agent, s.closed) && Ways(s) && Enabled(s, e)
    ensures Halts(Apply(s, e))
  {
    hide RoutineStep, RoutineEnabled, CanResize, Resized, NextWorker, PoolAfter, AgentAfter, PastAfter, ActEnabled,
      OnItsWay, Reported, CountIf, LimitFor, StopWatcher, RestartCounter;
    if e.Step? {
      StepWay(s, e.i, e.act);
      StepHeard(s, e.i, e.act);
    }
  }
}
