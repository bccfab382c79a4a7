/** Who is alive and what is closed, in every reachable state of the pipeline; and the tokens of its semaphore. */
module PipelineLife {
  import opened GoInt
  import opened Semaphores
  import opened Pipeline

  // ---------------------------------------------------------------- counting

  lemma {:induction false} CountAppend(ws: seq<Worker>, w: Worker, t: Trait)
    ensures CountIf(ws + [w], t) == CountIf(ws, t) + if Has(w, t) then 1 else 0
  {
    assert (ws + [w])[..|ws|] == ws;
  }

  lemma {:induction false} CountSet(ws: seq<Worker>, i: nat, w: Worker, t: Trait)
    requires i < |ws|
    ensures CountIf(ws[i := w], t) ==
            CountIf(ws, t) - (if Has(ws[i], t) then 1 else 0) + (if Has(w, t) then 1 else 0)
  {
    var last := |ws| - 1;
    if i == last {
      assert ws[i := w][..last] == ws[..last];
    } else {
      assert ws[i := w][..last] == ws[..last][i := w];
      CountSet(ws[..last], i, w, t);
    }
  }

  lemma {:induction false} CountPositive(ws: seq<Worker>, i: nat, t: Trait)
    requires i < |ws| && Has(ws[i], t)
    ensures CountIf(ws, t) > 0
  {
    if i < |ws| - 1 {
      CountPositive(ws[..|ws| - 1], i, t);
    }
  }

  lemma {:induction false} CountNone(ws: seq<Worker>, t: Trait)
    requires forall i :: 0 <= i < |ws| ==> !Has(ws[i], t)
    ensures CountIf(ws, t) == 0
  {
    if ws != [] {
      CountNone(ws[..|ws| - 1], t);
    }
  }

  // ---------------------------------------------------------------- life

  /** Phases in which the pool has no live worker. */
  predicate Quiet(a: Agent) {
    a.timerArmed || a.phase.Drained? || a.phase.Restarting? || a.phase.Resizing? || a.phase.AwaitingIdle?
    || a.phase.Closing? || a.phase.Stopped?
  }

  predicate OfGeneration(w: Worker, gen: nat) {
    w.gen <= gen && (w.pc.Gone? || w.gen == gen)
  }

  ghost predicate Life(s: State) {
    && s.pool.wg == CountIf(s.workers, IsLive)
    && (Quiet(s.agent) ==> s.pool.wg == 0)
    && (forall i :: 0 <= i < |s.workers| ==> OfGeneration(s.workers[i], s.pool.gen))
  }

  /** The flags follow the agent's phase, and nothing has panicked. */
  predicate Closings(a: Agent, c: Closed) {
    && !c.panicked
    && (a.phase.Closing? ==> a.phase.done < 3)
    && (a.timerArmed ==> a.phase.Listening? || a.phase.Stopping? || a.phase.Closing? || a.phase.Stopped?)
    && (c.requests <==> (a.phase.Closing? && a.phase.done >= 1) || a.phase.Stopped?)
    && (c.rate <==> (a.phase.Closing? && a.phase.done >= 2) || a.phase.Stopped?)
    && (c.results <==> a.phase.Stopped?)
  }

  lemma LiveMeansBusy(s: State, i: nat)
    requires Life(s) && i < |s.workers| && !s.workers[i].pc.Gone?
    ensures s.pool.wg > 0 && !Quiet(s.agent)
  {
    CountPositive(s.workers, i, IsLive);
  }

  lemma QuietMeansGone(s: State)
    requires Life(s) && s.pool.wg == 0
    ensures forall i :: 0 <= i < |s.workers| ==> s.workers[i].pc.Gone?
  {
    forall i | 0 <= i < |s.workers| ensures s.workers[i].pc.Gone? {
      if !s.workers[i].pc.Gone? {
        LiveMeansBusy(s, i);
      }
    }
  }

  /** What a worker's action does to the counters and flags that tell who is alive and what is closed. */
  lemma StepLife(s: State, i: nat, act: Act)
    requires !Quiet(s.agent) && Closings(s.agent, s.closed) && Enabled(s, Step(i, act))
    ensures var (s', w, w') := (StepOf(s, i, act), s.workers[i], NextWorker(s, s.workers[i], act));
            && w'.gen == w.gen && s'.pool.gen == s.pool.gen
            && s'.pool.wg == s.pool.wg - (if Has(w, IsLive) then 1 else 0) + (if Has(w', IsLive) then 1 else 0)
            && !Quiet(s'.agent) && Closings(s'.agent, s'.closed)
  {
    hide Done, CanAnswer, Sent, Received, CanSend, CanReceive;
  }

  lemma ActorIsLive(s: State, i: nat, act: Act)
    requires Enabled(s, Step(i, act))
    ensures !s.workers[i].pc.Gone?
  {
  }

  lemma StepKeepsLife(s: State, i: nat, act: Act)
    requires Life(s) && Closings(s.agent, s.closed) && Enabled(s, Step(i, act))
    ensures var s' := StepOf(s, i, act); Life(s') && Closings(s'.agent, s'.closed)
  {
    hide PoolAfter, AgentAfter, ClosedAfter, NextWorker, ActEnabled, CountIf, Quiet, Closings;
    ActorIsLive(s, i, act);
    LiveMeansBusy(s, i);
    StepLife(s, i, act);
    CountSet(s.workers, i, NextWorker(s, s.workers[i], act), IsLive);
  }

  lemma EventKeepsLife(s: State, e: Event)
    requires Life(s) && Closings(s.agent, s.closed) && Enabled(s, e)
    ensures var s' := Apply(s, e); Life(s') && Closings(s'.agent, s'.closed)
  {
    hide StepOf, RoutineStep, StartWatcher, StopWatcher, CanResize, ActEnabled, CountIf;
    if e.Step? {
      StepKeepsLife(s, e.i, e.act);
    } else {
      CountAppend(s.workers, Worker(s.pool.gen, Selecting, false), IsLive);
      if s.pool.wg == 0 {
        QuietMeansGone(s);
      }
    }
  }

  // ---------------------------------------------------------------- tokens

  /** The shape of the semaphore's channels: only the current one holds tokens, and never too many. */
  predicate Channels(sema: Sema) {
    && sema.chans != []
    && sema.Current().tokens <= sema.Current().capacity
    && (forall c :: 0 <= c < |sema.chans| - 1 ==> sema.chans[c].tokens == 0)
  }

  predicate OffersTo(w: Worker, chan: int) {
    w.pc.Waiting? ==> w.pc.chan == chan
  }

  ghost predicate Tokens(s: State) {
    && Channels(s.pool.sema)
    && s.pool.sema.Current().tokens == CountIf(s.workers, IsHolding)
    && (forall i :: 0 <= i < |s.workers| ==> OffersTo(s.workers[i], |s.pool.sema.chans| - 1))
  }

  /** What a worker's action does to the semaphore's channels. */
  lemma StepTokens(s: State, i: nat, act: Act)
    requires Channels(s.pool.sema) && Enabled(s, Step(i, act)) && OffersTo(s.workers[i], |s.pool.sema.chans| - 1)
    ensures var (sema, sema') := (s.pool.sema, StepOf(s, i, act).pool.sema);
            && Channels(sema') && |sema'.chans| == |sema.chans|
            && sema'.Current().tokens == sema.Current().tokens
               - (if Has(s.workers[i], IsHolding) then 1 else 0)
               + (if Has(NextWorker(s, s.workers[i], act), IsHolding) then 1 else 0)
            && OffersTo(NextWorker(s, s.workers[i], act), |sema'.chans| - 1)
  {
    hide Done, CanAnswer, WrapU, AgentAfter, PastAfter, ClosedAfter;
  }

  lemma StepKeepsTokens(s: State, i: nat, act: Act)
    requires Tokens(s) && Enabled(s, Step(i, act))
    ensures Tokens(StepOf(s, i, act))
  {
    hide PoolAfter, NextWorker, ActEnabled, Has, OffersTo, CountIf, Channels;
    StepTokens(s, i, act);
    CountSet(s.workers, i, NextWorker(s, s.workers[i], act), IsHolding);
  }

  lemma EventKeepsTokens(s: State, e: Event)
    requires Life(s) && Tokens(s) && Enabled(s, e)
    ensures Tokens(Apply(s, e))
  {
    hide StepOf, RoutineStep, StartWatcher, StopWatcher, ActEnabled, CountIf;
    if e.Step? {
      StepKeepsTokens(s, e.i, e.act);
    } else {
      CountAppend(s.workers, Worker(s.pool.gen, Selecting, false), IsHolding);
      if e.FinishResize? && Quiet(s.agent) {
        QuietMeansGone(s);
        CountNone(s.workers, IsHolding);
      }
    }
  }
}
