/** When the agent is stuck for good. It blocks in three places: while it waits for its workers after an announcement,
    while it waits for them at shutdown, and at the resize guard. For each, the exact condition under which no run gets
    it any further, and a run from the start that gets it there. */
module PipelineStuck {
  import opened GoInt
  import opened Semaphores
  import opened Workers
  import opened Pipeline
  import opened PipelineLife
  import opened PipelineJobs
  import opened PipelineRates
  import opened PipelineLimits
  import opened PipelineTheorems
  import opened PipelineDrive

  // ---------------------------------------------------------------- an announcement that nobody takes

  /** The agent waits for all workers: after an announcement, or at shutdown. */
  predicate Waits(phase: Phase) {
    phase.Draining? || phase.Stopping?
  }

  /** The agent waits for all workers, and one of them has an announcement to make. */
  ghost predicate Crossed(s: State) {
    Waits(s.agent.phase) && exists i :: 0 <= i < |s.workers| && Doomed(s.workers[i].pc)
  }

  /** A waiting agent takes no announcement, and a worker with one to make does nothing else. */
  lemma DoomedStays(s: State, e: Event, i: nat)
    requires Closings(s.agent, s.closed) && s.pool.wg > 0 && Enabled(s, e)
    requires Waits(s.agent.phase) && i < |s.workers| && Doomed(s.workers[i].pc)
    ensures var s' := Apply(s, e); s'.agent.phase == s.agent.phase && i < |s'.workers| && Doomed(s'.workers[i].pc)
  {
    hide RoutineStep, RoutineEnabled, PoolAfter, PastAfter, ClosedAfter, Done, CanAnswer, CanSend, CanReceive,
      RestartCounter, StopWatcher, LimitFor, CanResize, Resized;
  }

  lemma DoomedIsLive(pc: Pc)
    ensures Doomed(pc) ==> !pc.Gone?
  {
  }

  lemma CrossedStays(s: State, e: Event)
    requires Inv(s) && Crossed(s) && Enabled(s, e)
    ensures Crossed(Apply(s, e)) && Apply(s, e).agent.phase == s.agent.phase
  {
    hide Apply, Enabled, Doomed, Tokens, Accounted, Guarded, Announcements, CutOff, Limits;
    var i :| 0 <= i < |s.workers| && Doomed(s.workers[i].pc);
    DoomedIsLive(s.workers[i].pc);
    LiveMeansBusy(s, i);
    DoomedStays(s, e, i);
  }

  lemma {:induction false} CrossedForever(s: State, es: seq<Event>)
    requires Inv(s) && Crossed(s) && Run(s, es).Some?
    ensures Crossed(Run(s, es).value) && Run(s, es).value.agent.phase == s.agent.phase
    decreases |es|
  {
    hide Inv, Crossed, Enabled, Apply;
    if es != [] {
      CrossedStays(s, es[0]);
      EventKeeps(s, es[0]);
      CrossedForever(Apply(s, es[0]), es[1..]);
    }
  }

  // ---------------------------------------------------------------- otherwise the workers can all finish

  /** The agent waits, and no worker is left with an announcement to make. */
  ghost predicate Clearing(s: State) {
    && Inv(s) && Waits(s.agent.phase) && s.cfg.counterCapacity > 0
    && forall i :: 0 <= i < |s.workers| ==> !Doomed(s.workers[i].pc)
  }

  function Effort(ws: seq<Worker>): nat {
    if ws == [] then 0 else Effort(ws[..|ws| - 1]) + Rank(ws[|ws| - 1].pc)
  }

  lemma {:induction false} EffortSet(ws: seq<Worker>, i: nat, w: Worker)
    requires i < |ws|
    ensures Effort(ws[i := w]) == Effort(ws) - Rank(ws[i].pc) + Rank(w.pc)
  {
    hide Rank;
    var last := |ws| - 1;
    if i == last {
      assert ws[i := w][..last] == ws[..last];
    } else {
      assert ws[i := w][..last] == ws[..last][i := w];
      EffortSet(ws[..last], i, w);
    }
  }

  /** The context of every live worker of a waiting agent is done: the announcer has cancelled it, or the agent's own is
      done. */
  lemma WaitingIsDone(s: State, i: nat)
    requires Inv(s) && Waits(s.agent.phase) && i < |s.workers| && !s.workers[i].pc.Gone?
    ensures Done(s, s.workers[i].gen)
  {
    hide Tokens, Conserved, Requests, Accounted, CutOff, LastWords, Attended, CountIf, Ways, Installed;
    if s.agent.phase.Draining? {
      assert MarkOk(s, 2 * s.pool.gen);
      assert OfGeneration(s.workers[i], s.pool.gen);
    }
  }

  lemma WayOutIsOpen(s: State, i: nat)
    requires Inv(s) && Waits(s.agent.phase) && i < |s.workers| && !s.workers[i].pc.Gone? && !Doomed(s.workers[i].pc)
    requires s.workers[i].pc.Counting? ==> s.counter.buffered < s.cfg.counterCapacity
    ensures ActEnabled(s, s.workers[i], WayOut(s.workers[i].pc))
  {
    hide Inv, Done, CountIf, CanSend, CanReceive;
    WaitingIsDone(s, i);
    TokensAreHolders(s);
    if s.workers[i].pc.Releasing? {
      HolderFindsToken(s, i);
    }
  }

  lemma WayOutLeadsDown(s: State, i: nat)
    requires i < |s.workers| && ActEnabled(s, s.workers[i], WayOut(s.workers[i].pc)) && Done(s, s.workers[i].gen)
    requires !Doomed(s.workers[i].pc)
    ensures var (act, w) := (WayOut(s.workers[i].pc), s.workers[i]);
            var (w', s') := (NextWorker(s, w, act), StepOf(s, i, act));
            && Rank(w'.pc) < Rank(w.pc) && !Doomed(w'.pc)
            && s'.agent == s.agent && s'.cfg == s.cfg && s'.done == s.done && s'.workers == s.workers[i := w']
            && s'.past.releases - s.past.releases
              == (if Has(w, IsHolding) then 1 else 0) - (if Has(w', IsHolding) then 1 else 0)
  {
    hide CanAnswer, CanSend, CanReceive, ClosedAfter;
  }

  lemma WayOutIsTame(pc: Pc)
    ensures !WayOut(pc).Take? && (WayOut(pc).Answer? ==> WayOut(pc).answer == Failed)
  {
  }

  lemma Advance(s: State, i: nat) returns (s': State)
    requires Clearing(s) && i < |s.workers| && !s.workers[i].pc.Gone?
    ensures Leads(s, s', Tamely) && Clearing(s') && s'.agent == s.agent && Effort(s'.workers) < Effort(s.workers)
    ensures s'.cfg == s.cfg && s'.done == s.done
    ensures s'.past.releases + CountIf(s'.workers, IsHolding) == s.past.releases + CountIf(s.workers, IsHolding)
  {
    hide Leads, Inv, Doomed, Rank, WayOut, StepOf, ActEnabled, NextWorker, CountIf, Effort, Has, Done;
    var s0 := s;
    LeadsNowhere(s, Tamely);
    if s.workers[i].pc.Counting? {
      HoldingIsWatched(s, i);
      s0 := MakeRoom(s, Tamely);
    }
    var act := WayOut(s0.workers[i].pc);
    WayOutIsOpen(s0, i);
    WaitingIsDone(s0, i);
    WayOutLeadsDown(s0, i);
    ApplyStep(s0, i, act);
    WayOutIsTame(s0.workers[i].pc);
    LeadsOn(s, s0, Step(i, act), Tamely);
    s' := Apply(s0, Step(i, act));
    LeadsKeepsInv(s, s', Tamely);
    EffortSet(s0.workers, i, NextWorker(s0, s0.workers[i], act));
    CountSet(s0.workers, i, NextWorker(s0, s0.workers[i], act), IsHolding);
  }

  lemma WaitGroupCounts(s: State)
    requires Inv(s)
    ensures s.pool.wg == CountIf(s.workers, IsLive)
  {
  }

  /** All workers can be brought to their end, each one that has a token giving it back. */
  lemma {:induction false} Drain(s: State) returns (s': State)
    requires Clearing(s)
    ensures Leads(s, s', Tamely) && Inv(s') && s'.agent == s.agent && s'.pool.wg == 0
    ensures s'.cfg == s.cfg && s'.done == s.done
    ensures s'.past.releases == s.past.releases + CountIf(s.workers, IsHolding)
    decreases Effort(s.workers)
  {
    hide Leads, Inv, Doomed, CountIf, Effort;
    if i :| 0 <= i < |s.workers| && !s.workers[i].pc.Gone? {
      var s1 := Advance(s, i);
      s' := Drain(s1);
      LeadsFurther(s, s1, s', Tamely);
    } else {
      s' := s;
      LeadsNowhere(s, Tamely);
      CountNone(s.workers, IsLive);
      CountNone(s.workers, IsHolding);
      WaitGroupCounts(s);
    }
  }

  /** No run gets the agent past its wait. */
  ghost predicate StuckWaiting(s: State) {
    forall es :: Run(s, es).Some? ==> Run(s, es).value.agent.phase == s.agent.phase
  }

  /** An agent that waits for its workers, after an announcement or at shutdown, is stuck in every run exactly when some
      worker has met a 429 and will announce it. */
  lemma AnnouncerBlocks(cfg: Config, s: State)
    requires Reachable(cfg, s) && cfg.counterCapacity > 0 && Waits(s.agent.phase)
    ensures StuckWaiting(s) <==> exists i :: 0 <= i < |s.workers| && Doomed(s.workers[i].pc)
  {
    hide Inv, Doomed, Apply, Enabled, CountIf;
    ReachableInv(cfg, s);
    ReachableConfigured(cfg, s);
    if Crossed(s) {
      forall es | Run(s, es).Some? ensures Run(s, es).value.agent.phase == s.agent.phase {
        CrossedForever(s, es);
      }
    } else {
      var s1 := Drain(s);
      WaitCanReturn(s1);
      LeadsOn(s, s1, AgentDoes(WaitReturns), Tamely);
      var es :| Drives(es, s, Apply(s1, AgentDoes(WaitReturns)), Tamely);
      assert Run(s, es).Some?;
    }
  }

  lemma WaitCanReturn(s: State)
    requires Waits(s.agent.phase) && s.pool.wg == 0
    ensures Enabled(s, AgentDoes(WaitReturns))
    ensures Apply(s, AgentDoes(WaitReturns)) ==
            s.(agent := s.agent.(phase := if s.agent.phase.Stopping? then Closing(0) else Drained))
  {
  }

  // ---------------------------------------------------------------- the resize guard

  /** In the wait loop with a number of releases that is no multiple of 2^64. */
  ghost predicate Jammed(s: State) {
    s.agent.phase.AwaitingIdle? && s.past.releases % TWO64 != 0
  }

  lemma JammedStays(s: State, e: Event)
    requires Inv(s) && Jammed(s) && Enabled(s, e)
    ensures Jammed(Apply(s, e))
  {
    hide RoutineStep, RoutineEnabled, StepOf, ActEnabled, Tokens, Conserved, Requests, Accounted, Announcements, CutOff,
      Staged, LastWords, Limits, Attended, CountedDown;
    CountdownZero(s.past.releases);
    if e.Step? {
      ActorIsLive(s, e.i, e.act);
      LiveMeansBusy(s, e.i);
    }
  }

  lemma {:induction false} JammedForever(s: State, es: seq<Event>)
    requires Inv(s) && Jammed(s) && Run(s, es).Some?
    ensures Jammed(Run(s, es).value)
    decreases |es|
  {
    hide Inv, Jammed, Enabled, Apply;
    if es != [] {
      JammedStays(s, es[0]);
      EventKeeps(s, es[0]);
      JammedForever(Apply(s, es[0]), es[1..]);
    }
  }

  /** No run gets the agent out of the wait loop of its resize. */
  ghost predicate StuckResizing(s: State) {
    forall es :: Run(s, es).Some? ==> Run(s, es).value.agent.phase.AwaitingIdle?
  }

  /** An agent in the wait loop is stuck in every run exactly when the releases so far are no multiple of 2^64. */
  lemma ResizeBlocks(cfg: Config, s: State)
    requires Reachable(cfg, s) && s.agent.phase.AwaitingIdle?
    ensures StuckResizing(s) <==> s.past.releases % TWO64 != 0
  {
    hide Inv;
    ReachableInv(cfg, s);
    ResizeGuard(cfg, s);
    if s.past.releases % TWO64 != 0 {
      forall es | Run(s, es).Some? ensures Run(s, es).value.agent.phase.AwaitingIdle? {
        JammedForever(s, es);
      }
    } else {
      LeadsNowhere(s, Anyhow);
      LeadsOn(s, s, FinishResize, Anyhow);
      var es :| Drives(es, s, Apply(s, FinishResize), Anyhow);
      assert Run(s, es).Some?;
    }
  }

  /** In particular the first resize, at fewer than 2^64 releases, never ends. */
  lemma FirstResizeNeverEnds(cfg: Config, s: State)
    requires Reachable(cfg, s) && s.agent.phase.AwaitingIdle? && s.past.releases < TWO64
    ensures StuckResizing(s)
  {
    hide StuckResizing;
    ReachableInv(cfg, s);
    ResizeBlocks(cfg, s);
  }

  // ---------------------------------------------------------------- both are reached

  /** The pool with `k` workers of its first generation spawned. */
  function Spawned(cfg: Config, k: nat): State
    requires k <= cfg.workerCount
  {
    var s := Init(cfg);
    s.(workers := seq(k, _ => Worker(0, Selecting, false)), pool := s.pool.(wg := k),
       agent := s.agent.(phase := Starting(cfg.workerCount - k)))
  }

  /** The pool fully started. */
  function Opened(cfg: Config): State {
    var s := Spawned(cfg, cfg.workerCount);
    s.(agent := s.agent.(phase := Listening))
  }

  lemma {:induction false} Spawns(cfg: Config, k: nat)
    requires k <= cfg.workerCount
    ensures Leads(Init(cfg), Spawned(cfg, k), Silently)
  {
    hide Leads, NewSema, StartWatcher;
    if k == 0 {
      LeadsNowhere(Init(cfg), Silently);
      assert Spawned(cfg, 0) == Init(cfg);
    } else {
      Spawns(cfg, k - 1);
      var s := Spawned(cfg, k - 1);
      LeadsOn(Init(cfg), s, Spawn, Silently);
      assert s.workers + [Worker(0, Selecting, false)] == seq(k, _ => Worker(0, Selecting, false));
    }
  }

  lemma Opens(cfg: Config)
    ensures Leads(Init(cfg), Opened(cfg), Silently) && Inv(Opened(cfg))
  {
    hide Leads, Inv, NewSema, StartWatcher;
    Spawns(cfg, cfg.workerCount);
    LeadsOn(Init(cfg), Spawned(cfg, cfg.workerCount), AgentDoes(StartReturns), Silently);
    InitInv(cfg);
    LeadsKeepsInv(Init(cfg), Opened(cfg), Silently);
  }

  /** In the first generation, a token is free when no worker holds one. */
  lemma TokenIsFree(s: State)
    requires Inv(s) && s.pool.gen == 0 && s.cfg.maxRequests > 0
    requires forall i :: 0 <= i < |s.workers| ==> !Has(s.workers[i], IsHolding)
    ensures s.pool.sema.chans != [] && s.pool.sema.Current().tokens < s.pool.sema.Current().capacity
  {
    CountNone(s.workers, IsHolding);
  }

  /** Nothing has happened to the first generation yet but calls. */
  ghost predicate Calm(s: State) {
    && Inv(s) && !s.done && !s.jobsClosed && s.pool.gen == 0 && s.pool.cancelled == {}
    && s.agent.phase.Listening? && !s.agent.timerArmed && s.cfg.counterCapacity > 0 && s.cfg.maxRequests > 0
  }

  lemma TakesJob(s: State, i: nat, job: string) returns (s': State)
    requires Calm(s) && i < |s.workers| && s.workers[i] == Worker(0, Selecting, false)
    ensures Leads(s, s', Anyhow) && Calm(s') && s'.past.releases == s.past.releases
    ensures s'.workers == s.workers[i := Worker(0, Entering(job), false)] && s'.cfg == s.cfg
    ensures Enabled(s, Step(i, Take(job))) && s' == Apply(s, Step(i, Take(job)))
  {
    hide Leads, Inv;
    LeadsNowhere(s, Anyhow);
    LeadsOn(s, s, Step(i, Take(job)), Anyhow);
    s' := Apply(s, Step(i, Take(job)));
    LeadsKeepsInv(s, s', Anyhow);
  }

  lemma CallsCalmly(s: State, i: nat, job: string, a: Answer) returns (s': State)
    requires Calm(s) && i < |s.workers| && s.workers[i] == Worker(0, Entering(job), false)
    requires forall j :: 0 <= j < |s.workers| ==> !Has(s.workers[j], IsHolding)
    ensures Leads(s, s', Silently) && Calm(s') && s'.past.releases == s.past.releases + 1
    ensures s'.workers == s.workers[i := Worker(0, Reporting(job, a), false)] && s'.cfg == s.cfg
    ensures s'.past.taken == s.past.taken && s'.past.sent == s.past.sent
  {
    NotBlocked(s);
    TokenIsFree(s);
    hide Leads, Inv, Has;
    s' := CallThrough(s, i, job, a);
  }

  lemma ReportsA429(s: State, i: nat, job: string, rate: Rate) returns (s': State)
    requires Calm(s) && i < |s.workers| && s.workers[i] == Worker(0, Reporting(job, TooMany(rate)), false)
    ensures Leads(s, s', Anyhow) && Calm(s') && s'.past.releases == s.past.releases
    ensures s'.workers == s.workers[i := Worker(0, Cancelling(rate), false)] && s'.cfg == s.cfg
  {
    hide Leads, Inv;
    LeadsNowhere(s, Anyhow);
    LeadsOn(s, s, Step(i, SendResult), Anyhow);
    var s1 := Apply(s, Step(i, SendResult));
    LeadsOn(s, s1, Step(i, Check), Anyhow);
    s' := Apply(s1, Step(i, Check));
    LeadsKeepsInv(s, s', Anyhow);
    assert s'.workers == s.workers[i := Worker(0, Cancelling(rate), false)];
  }

  /** A worker takes a job and is told to slow down. */
  lemma MeetsA429(s: State, i: nat, job: string, rate: Rate) returns (s': State)
    requires Calm(s) && i < |s.workers| && s.workers[i] == Worker(0, Selecting, false)
    requires forall j :: 0 <= j < |s.workers| ==> !Has(s.workers[j], IsHolding)
    ensures Leads(s, s', Anyhow) && Calm(s') && s'.past.releases == s.past.releases + 1
    ensures s'.workers == s.workers[i := Worker(0, Cancelling(rate), false)] && s'.cfg == s.cfg
  {
    hide Leads, Calm;
    var s1 := TakesJob(s, i, job);
    var s2 := CallsCalmly(s1, i, job, TooMany(rate));
    LeadsLoudly(s1, s2, Silently);
    LeadsFurther(s, s1, s2, Anyhow);
    s' := ReportsA429(s2, i, job, rate);
    LeadsFurther(s, s2, s', Anyhow);
    assert s'.workers == s.workers[i := Worker(0, Cancelling(rate), false)];
  }

  lemma NotBlocked(s: State)
    requires Inv(s) && s.agent.phase.Listening?
    ensures !s.pool.sema.blockAcquire
  {
  }

  lemma CancelStep(s: State, i: nat)
    requires i < |s.workers| && s.workers[i].pc.Cancelling?
    ensures Enabled(s, Step(i, Cancel))
    ensures Apply(s, Step(i, Cancel)) ==
            s.(workers := s.workers[i := s.workers[i].(pc := Announcing(s.workers[i].pc.rate))],
               pool := s.pool.(cancelled := s.pool.cancelled + {s.workers[i].gen}))
  {
    hide Done, CanAnswer;
  }

  lemma AnnounceStep(s: State, i: nat)
    requires i < |s.workers| && s.workers[i].pc.Announcing? && s.agent.phase.Listening? && !s.closed.rate
    ensures Enabled(s, Step(i, Announce))
    ensures var s' := Apply(s, Step(i, Announce));
            && s' == s.(workers := s.workers[i := s.workers[i].(pc := Leaving)], agent := s'.agent)
            && s'.agent.phase == Draining
  {
    hide Done, CanAnswer;
  }

  lemma Cancels(s: State, i: nat, rate: Rate) returns (s': State)
    requires Inv(s) && i < |s.workers| && s.workers[i].pc == Cancelling(rate)
    ensures Leads(s, s', Tamely) && Inv(s') && s'.workers == s.workers[i := s.workers[i].(pc := Announcing(rate))]
    ensures s'.agent == s.agent && s'.closed == s.closed && s'.cfg == s.cfg && s'.past.releases == s.past.releases
  {
    hide Leads, Inv, Apply, Enabled;
    CancelStep(s, i);
    LeadsNowhere(s, Tamely);
    LeadsOn(s, s, Step(i, Cancel), Tamely);
    s' := Apply(s, Step(i, Cancel));
    LeadsKeepsInv(s, s', Tamely);
  }

  lemma IsHeard(s: State, i: nat, rate: Rate) returns (s': State)
    requires Inv(s) && i < |s.workers| && s.workers[i].pc == Announcing(rate) && s.agent.phase.Listening?
      && !s.closed.rate
    ensures Leads(s, s', Tamely) && Inv(s') && s'.workers == s.workers[i := s.workers[i].(pc := Leaving)]
    ensures s'.agent.phase == Draining && s'.cfg == s.cfg && s'.past.releases == s.past.releases
  {
    hide Leads, Inv, Apply, Enabled;
    AnnounceStep(s, i);
    LeadsNowhere(s, Tamely);
    LeadsOn(s, s, Step(i, Announce), Tamely);
    s' := Apply(s, Step(i, Announce));
    LeadsKeepsInv(s, s', Tamely);
  }

  /** A worker cancels its generation and its announcement is taken. */
  lemma Announces(s: State, i: nat, rate: Rate) returns (s': State)
    requires Inv(s) && i < |s.workers| && s.workers[i].pc == Cancelling(rate)
    requires s.agent.phase.Listening? && !s.agent.timerArmed
    ensures Leads(s, s', Tamely) && Inv(s') && s'.workers == s.workers[i := s.workers[i].(pc := Leaving)]
    ensures s'.agent.phase == Draining && s'.cfg == s.cfg && s'.past.releases == s.past.releases
  {
    hide Leads, Inv;
    WatchedIsOpen(s);
    var s1 := Cancels(s, i, rate);
    s' := IsHeard(s1, i, rate);
    LeadsFurther(s, s1, s', Tamely);
    assert s'.workers == s.workers[i := s.workers[i].(pc := Leaving)];
  }

  /** From the wait for the workers to the wait loop of the resize. */
  lemma ReachesResize(s: State, rpm: nat) returns (s': State)
    requires Inv(s) && s.agent.phase.Draining? && s.pool.wg == 0
    ensures Leads(s, s', Tamely) && s'.agent.phase.AwaitingIdle? && s'.past.releases == s.past.releases
  {
    hide Leads, Inv, StartWatcher, StopWatcher, AllExited, LimitFor;
    LeadsNowhere(s, Tamely);
    LeadsOn(s, s, AgentDoes(WaitReturns), Tamely);
    var s1 := Apply(s, AgentDoes(WaitReturns));
    LeadsOn(s, s1, AgentDoes(Arm), Tamely);
    var s2 := Apply(s1, AgentDoes(Arm));
    LeadsOn(s, s2, AgentDoes(Fire(rpm)), Tamely);
    var s3 := Apply(s2, AgentDoes(Fire(rpm)));
    LeadsOn(s, s3, AgentDoes(RestartWatcher), Tamely);
    var s4 := Apply(s3, AgentDoes(RestartWatcher));
    LeadsOn(s, s4, AgentDoes(BeginResize), Tamely);
    s' := Apply(s4, AgentDoes(BeginResize));
  }

  lemma IsReachable(cfg: Config, s: State)
    requires Leads(Init(cfg), s, Anyhow)
    ensures Reachable(cfg, s)
  {
    var es :| Drives(es, Init(cfg), s, Anyhow);
  }

  /** Every pool, whatever its size and limits, can be stuck at its first resize: one call answered with a 429
      will do. */
  lemma FirstResizeBlocks(cfg: Config, job: string, rate: Rate, rpm: nat)
    requires cfg.workerCount > 0 && cfg.maxRequests > 0 && cfg.counterCapacity > 0
    ensures exists s :: Reachable(cfg, s) && s.past.releases == 1 && s.agent.phase.AwaitingIdle? && StuckResizing(s)
  {
    hide *;
    OpenedIsCalm(cfg);
    var s1 := MeetsA429(Opened(cfg), 0, job, rate);
    LeadsFurther(Init(cfg), Opened(cfg), s1, Anyhow);
    var s2 := OneAnnounces(s1, rate);
    LeadsFurther(Init(cfg), s1, s2, Anyhow);
    var s3 := Drain(s2);
    LeadsLoudly(s2, s3, Tamely);
    LeadsFurther(Init(cfg), s2, s3, Anyhow);
    var s4 := ReachesResize(s3, rpm);
    LeadsLoudly(s3, s4, Tamely);
    LeadsFurther(Init(cfg), s3, s4, Anyhow);
    IsReachable(cfg, s4);
    OneIsNoTurn();
    ResizeBlocks(cfg, s4);
  }

  lemma OneIsNoTurn()
    ensures 1 % TWO64 != 0
  {
  }

  /** The only worker that met a 429 announces it, while the others are free. */
  lemma OneAnnounces(s: State, rate: Rate) returns (s': State)
    requires Calm(s) && |s.workers| > 0 && s.workers[0] == Worker(0, Cancelling(rate), false)
    requires forall j :: 0 < j < |s.workers| ==> s.workers[j].pc.Selecting?
    ensures Leads(s, s', Anyhow) && Clearing(s') && s'.agent.phase.Draining? && s'.past.releases == s.past.releases
    ensures CountIf(s'.workers, IsHolding) == 0
  {
    hide Leads, Inv, CountIf;
    s' := Announces(s, 0, rate);
    LeadsLoudly(s, s', Tamely);
    CountNone(s'.workers, IsHolding);
  }

  lemma OpenedIsCalm(cfg: Config)
    requires cfg.maxRequests > 0 && cfg.counterCapacity > 0
    ensures Leads(Init(cfg), Opened(cfg), Silently) && Leads(Init(cfg), Opened(cfg), Anyhow) && Calm(Opened(cfg))
    ensures Opened(cfg).cfg == cfg && Opened(cfg).past.releases == 0 && |Opened(cfg).workers| == cfg.workerCount
    ensures forall j :: 0 <= j < cfg.workerCount ==> Opened(cfg).workers[j] == Worker(0, Selecting, false)
    ensures forall j :: 0 <= j < cfg.workerCount ==> !Has(Opened(cfg).workers[j], IsHolding)
  {
    hide Inv, Leads;
    Opens(cfg);
    LeadsLoudly(Init(cfg), Opened(cfg), Silently);
  }

  lemma CancellerIsDoomed(w: Worker)
    requires w.pc.Cancelling?
    ensures Doomed(w.pc) && !Has(w, IsHolding)
  {
  }

  lemma CalmListens(s: State)
    requires Calm(s)
    ensures Inv(s) && s.agent.phase.Listening? && !s.agent.timerArmed
  {
  }

  /** Every pool of two workers or more can be stuck at its first announcement: two calls answered with a 429
      will do. */
  lemma FirstAnnouncementBlocks(cfg: Config, job1: string, job2: string, rate1: Rate, rate2: Rate)
    requires cfg.workerCount > 1 && cfg.maxRequests > 0 && cfg.counterCapacity > 0
    ensures exists s :: Reachable(cfg, s) && s.agent.phase.Draining? && StuckWaiting(s)
  {
    hide *;
    OpenedIsCalm(cfg);
    var s1 := MeetsA429(Opened(cfg), 0, job1, rate1);
    LeadsFurther(Init(cfg), Opened(cfg), s1, Anyhow);
    CancellerIsDoomed(s1.workers[0]);
    var s2 := MeetsA429(s1, 1, job2, rate2);
    LeadsFurther(Init(cfg), s1, s2, Anyhow);
    CalmListens(s2);
    CancellerIsDoomed(s2.workers[1]);
    var s3 := Announces(s2, 0, rate1);
    LeadsLoudly(s2, s3, Tamely);
    LeadsFurther(Init(cfg), s2, s3, Anyhow);
    IsReachable(cfg, s3);
    assert s3.workers[1] == s2.workers[1];
    StoppingWaits(s3);
    AnnouncerBlocks(cfg, s3);
  }

  /** The agent's context is done, and the agent turns to its shutdown. */
  lemma ShutsDown(s: State) returns (s': State)
    requires Inv(s) && s.agent.phase.Listening?
    ensures Leads(s, s', Anyhow) && s'.workers == s.workers && s'.agent.phase == Stopping
    ensures s'.past.releases == s.past.releases
  {
    hide Leads, Inv;
    LeadsNowhere(s, Anyhow);
    LeadsOn(s, s, ContextDone, Anyhow);
    var s1 := Apply(s, ContextDone);
    LeadsOn(s, s1, AgentDoes(SeeContextDone), Anyhow);
    s' := Apply(s1, AgentDoes(SeeContextDone));
  }

  /** Every pool can be stuck at shutdown: one call answered with a 429, whose worker finds its context not done just
      before it is. */
  lemma ShutdownBlocks(cfg: Config, job: string, rate: Rate)
    requires cfg.workerCount > 0 && cfg.maxRequests > 0 && cfg.counterCapacity > 0
    ensures exists s :: Reachable(cfg, s) && s.agent.phase.Stopping? && s.past.releases == 1 && StuckWaiting(s)
  {
    hide *;
    OpenedIsCalm(cfg);
    var s1 := MeetsA429(Opened(cfg), 0, job, rate);
    LeadsFurther(Init(cfg), Opened(cfg), s1, Anyhow);
    CalmListens(s1);
    CancellerIsDoomed(s1.workers[0]);
    var s2 := ShutsDown(s1);
    LeadsFurther(Init(cfg), s1, s2, Anyhow);
    IsReachable(cfg, s2);
    StoppingWaits(s2);
    AnnouncerBlocks(cfg, s2);
  }

  lemma StoppingWaits(s: State)
    ensures s.agent.phase.Stopping? || s.agent.phase.Draining? ==> Waits(s.agent.phase)
  {
  }
}
