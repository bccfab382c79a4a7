/** When a worker will be free to take a job again: an exact condition on the state of the pipeline. */
module PipelineFree {
  import opened GoInt
  import opened Semaphores
  import opened Workers
  import opened Pipeline
  import opened PipelineLife
  import opened PipelineRates
  import opened PipelineLimits
  import opened PipelineCrew
  import opened PipelineTheorems
  import opened PipelineDrive
  import opened PipelineStuck

  /** A free worker: at the top of its loop, the job channel open. */
  predicate Free(s: State, i: nat) {
    !s.jobsClosed && i < |s.workers| && s.workers[i].pc.Selecting?
  }

  /** The worker can come back to the top of its loop: its job can end other than in a 429, and either its call can end
      well or its context is not done. */
  predicate Returns(s: State, w: Worker) {
    match w.pc
    case Selecting => true
    case Entering(_) => true
    case Admitted(_) => true
    case Waiting(_, _) => true
    case Dropping(_) => true
    case Counting(_) => !Done(s, w.gen)
    case Calling(_) => !Done(s, w.gen)
    case InCall(_) => !w.late
    case Releasing(_, a) => EndsWell(s, w.gen, a)
    case Reporting(_, a) => EndsWell(s, w.gen, a)
    case Checking(a) => !a.TooMany? && !Done(s, w.gen)
    case _ => false
  }

  predicate EndsWell(s: State, gen: nat, a: Answer) {
    a.Data? || a.NoContent? || (a.Failed? && !Done(s, gen))
  }

  predicate SomeReturns(s: State) {
    exists i :: 0 <= i < |s.workers| && Returns(s, s.workers[i])
  }

  /** Announcements of the current generation, made or certain to be offered. */
  function Offers(s: State): nat {
    CountIf(s.workers, IsDoomed) + if s.agent.phase.Draining? then 1 else 0
  }

  /** The pool can get through to another generation: no two announcements cross, and once all tokens are given back the
      releases are a multiple of 2^64. */
  predicate Restarts(s: State) {
    && Offers(s) <= 1 && s.cfg.workerCount > 0
    && IsTurn(s.past.releases + CountIf(s.workers, IsHolding))
  }

  predicate IsTurn(releases: nat) {
    releases % TWO64 == 0
  }

  /** A worker can still become free: the context is not done, and a worker can come back, or one is about to be
      spawned, or the pool can be restarted. */
  predicate CanFree(s: State) {
    !s.done && (SomeReturns(s) || (s.agent.phase.Starting? && s.agent.phase.left > 0) || Restarts(s))
  }

  // ---------------------------------------------------------------- what cannot be freed stays so

  /** A worker that cannot come back does not begin to be able to, gives a token back or keeps it, and can only add to
      the announcements. */
  lemma StepBars(s: State, i: nat, act: Act)
    requires Enabled(s, Step(i, act)) && !s.done && !s.jobsClosed && !Returns(s, s.workers[i])
    requires LatePath(s, s.workers[i]) && !Quiet(s.agent) && Closings(s.agent, s.closed)
    ensures var (s', w, w') := (StepOf(s, i, act), s.workers[i], NextWorker(s, s.workers[i], act));
            && !Returns(s', w') && w'.gen == w.gen
            && s'.past.releases - s.past.releases ==
               (if Has(w, IsHolding) then 1 else 0) - (if Has(w', IsHolding) then 1 else 0)
            && (if Has(w', IsDoomed) then 1 else 0) + (if s'.agent.phase.Draining? then 1 else 0) >=
               (if Has(w, IsDoomed) then 1 else 0) + (if s.agent.phase.Draining? then 1 else 0)
            && (s'.agent.phase == s.agent.phase || s'.agent.phase.Draining?)
  {
    hide CanSend, CanReceive, ClosedAfter, Sent, Received;
  }

  /** The pool and the context of the others only move on. */
  lemma StepMovesOn(s: State, i: nat, act: Act)
    requires Enabled(s, Step(i, act))
    ensures var s' := StepOf(s, i, act);
            && s'.done == s.done && s'.jobsClosed == s.jobsClosed && s'.cfg == s.cfg
            && s.pool.cancelled <= s'.pool.cancelled
            && s'.workers == s.workers[i := NextWorker(s, s.workers[i], act)]
  {
    hide CanSend, CanReceive, ClosedAfter, Sent, Received, CanAnswer, PastAfter, AgentAfter;
  }

  lemma OthersStayBarred(s: State, s': State, w: Worker)
    requires !Returns(s, w) && s'.done == s.done && s.pool.cancelled <= s'.pool.cancelled
    ensures !Returns(s', w)
  {
  }

  lemma StepKeepsBarred(s: State, i: nat, act: Act)
    requires Inv(s) && !CanFree(s) && !s.done && Enabled(s, Step(i, act))
    ensures !CanFree(StepOf(s, i, act))
  {
    hide Inv, ActEnabled, NextWorker, PoolAfter, AgentAfter, PastAfter, ClosedAfter, CountIf, Returns, Has, StepOf,
      Closings, Quiet, LatePath;
    OpenWhileNotDone(s);
    ActorIsLive(s, i, act);
    LiveIsBusy(s, i);
    LateIsOnPath(s, i);
    StepBars(s, i, act);
    StepMovesOn(s, i, act);
    var s', w' := StepOf(s, i, act), NextWorker(s, s.workers[i], act);
    CountSet(s.workers, i, w', IsHolding);
    CountSet(s.workers, i, w', IsDoomed);
    forall j | 0 <= j < |s'.workers| ensures !Returns(s', s'.workers[j]) {
      if j != i {
        OthersStayBarred(s, s', s.workers[j]);
      }
    }
  }

  lemma LiveIsBusy(s: State, i: nat)
    requires Inv(s) && i < |s.workers| && !s.workers[i].pc.Gone?
    ensures !Quiet(s.agent) && Closings(s.agent, s.closed)
  {
    LiveMeansBusy(s, i);
  }

  lemma OpenWhileNotDone(s: State)
    requires Inv(s) && !s.done
    ensures !s.jobsClosed && !Halting(s.agent.phase)
  {
  }

  lemma AgentKeepsBarred(s: State, move: AgentAct)
    requires Inv(s) && !CanFree(s) && !s.done && Enabled(s, AgentDoes(move))
    ensures !CanFree(AgentStep(s, move))
  {
    hide Inv, CountIf, Returns, RestartCounter, StopWatcher, CloseOne, LimitFor;
    OpenWhileNotDone(s);
    if s.pool.wg == 0 {
      NobodyLeft(s);
    }
    var s' := AgentStep(s, move);
    forall j | 0 <= j < |s'.workers| ensures !Returns(s', s'.workers[j]) {
      OthersStayBarred(s, s', s.workers[j]);
    }
  }

  lemma NobodyLeft(s: State)
    requires Inv(s) && s.pool.wg == 0
    ensures CountIf(s.workers, IsHolding) == 0 && CountIf(s.workers, IsDoomed) == 0
    ensures forall i :: 0 <= i < |s.workers| ==> s.workers[i].pc.Gone?
  {
    QuietMeansGone(s);
    CountNone(s.workers, IsHolding);
    CountNone(s.workers, IsDoomed);
  }

  lemma ResizeKeepsBarred(s: State)
    requires Inv(s) && !CanFree(s) && !s.done && Enabled(s, FinishResize)
    ensures !CanFree(Apply(s, FinishResize))
  {
    NobodyLeft(s);
    CountdownZero(s.past.releases);
    assert s.pool.sema.activeCount == CountedDown(s.past.releases);
    hide Inv, CountIf, CountedDown;
  }

  lemma EventKeepsBarred(s: State, e: Event)
    requires Inv(s) && !CanFree(s) && Enabled(s, e)
    ensures !CanFree(Apply(s, e))
  {
    hide Inv, StepOf, AgentStep, RoutineStep, ActEnabled, AgentEnabled, RoutineEnabled, CountIf, Returns, CanResize,
      Resized;
    if !s.done {
      match e {
        case Step(i, act) => StepKeepsBarred(s, i, act);
        case AgentDoes(move) => AgentKeepsBarred(s, move);
        case FinishResize => ResizeKeepsBarred(s);
        case Spawn =>
        case ContextDone =>
        case _ =>
          var s' := Apply(s, e);
          forall j | 0 <= j < |s.workers| && !s'.done ensures !Returns(s', s.workers[j]) {
            OthersStayBarred(s, s', s.workers[j]);
          }
      }
    } else {
      DoneIsForGood(s, e);
    }
  }

  lemma DoneIsForGood(s: State, e: Event)
    requires Enabled(s, e) && s.done
    ensures Apply(s, e).done
  {
    hide ActEnabled, AgentEnabled, RoutineEnabled, RoutineStep, CanResize, Resized;
  }

  // ---------------------------------------------------------------- a worker that can come back does

  /** The way back: give up on tokens, let calls end well. */
  function WayBack(pc: Pc): Act {
    match pc
    case InCall(_) => Answer(NoContent)
    case _ => WayOut(pc)
  }

  /** `s'` is `s` with worker `i` further on, and nothing about it done or closed. */
  ghost predicate Kept(s: State, s': State, i: nat) {
    && i < |s.workers| == |s'.workers| && s'.cfg == s.cfg && s'.done == s.done && s'.jobsClosed == s.jobsClosed
    && s'.pool.cancelled == s.pool.cancelled
  }

  lemma WayBackIsOpen(s: State, i: nat)
    requires Inv(s) && !s.done && i < |s.workers| && Returns(s, s.workers[i]) && !s.workers[i].pc.Selecting?
    requires s.workers[i].pc.Counting? ==> s.counter.buffered < s.cfg.counterCapacity
    ensures ActEnabled(s, s.workers[i], WayBack(s.workers[i].pc))
  {
    hide Inv, Done, CountIf, CanSend, CanReceive;
    TokensAreHolders(s);
    LiveIsNotIdle(s, i);
    if s.workers[i].pc.Releasing? {
      HolderFindsToken(s, i);
    }
  }

  lemma WayBackLeadsBack(s: State, i: nat)
    requires i < |s.workers| && ActEnabled(s, s.workers[i], WayBack(s.workers[i].pc)) && Returns(s, s.workers[i])
    requires !s.workers[i].pc.Selecting? && !s.done && LatePath(s, s.workers[i])
    ensures var (act, w) := (WayBack(s.workers[i].pc), s.workers[i]);
            var (w', s') := (NextWorker(s, w, act), StepOf(s, i, act));
            && Allows(Tamely, Step(i, act)) && Kept(s, s', i) && s'.workers[i] == w' && Returns(s', w')
            && (Rank(w'.pc) < Rank(w.pc) || w'.pc.Selecting?)
  {
    hide CanSend, CanReceive, ClosedAfter, Sent, Received, PastAfter, AgentAfter;
  }

  lemma {:induction false} ComesBack(s: State, i: nat) returns (s': State)
    requires Inv(s) && !s.done && s.cfg.counterCapacity > 0 && i < |s.workers| && Returns(s, s.workers[i])
    ensures Leads(s, s', Tamely) && Inv(s') && Kept(s, s', i) && s'.workers[i].pc.Selecting?
    decreases Rank(s.workers[i].pc)
  {
    hide Leads, Inv, Rank, WayBack, StepOf, ActEnabled, NextWorker, Returns;
    LeadsNowhere(s, Tamely);
    if s.workers[i].pc.Selecting? {
      s' := s;
    } else {
      var s0 := s;
      if s.workers[i].pc.Counting? {
        HoldingIsWatched(s, i);
        s0 := MakeRoom(s, Tamely);
      }
      SameReturns(s, s0, s.workers[i]);
      assert LatePath(s0, s0.workers[i]) by { LateIsOnPath(s0, i); }
      WayBackIsOpen(s0, i);
      WayBackLeadsBack(s0, i);
      ApplyStep(s0, i, WayBack(s0.workers[i].pc));
      LeadsOn(s, s0, Step(i, WayBack(s0.workers[i].pc)), Tamely);
      var s1 := Apply(s0, Step(i, WayBack(s0.workers[i].pc)));
      LeadsKeepsInv(s, s1, Tamely);
      if s1.workers[i].pc.Selecting? {
        s' := s1;
      } else {
        s' := ComesBack(s1, i);
        LeadsFurther(s, s1, s', Tamely);
      }
    }
  }

  lemma LateIsOnPath(s: State, i: nat)
    requires Inv(s) && i < |s.workers|
    ensures LatePath(s, s.workers[i])
  {
  }

  lemma SameReturns(s: State, s': State, w: Worker)
    requires s'.done == s.done && s'.pool == s.pool
    ensures Returns(s', w) == Returns(s, w)
  {
  }

  // ---------------------------------------------------------------- a pool that can be restarted is

  /** The agent is past its wait, or the timer is armed: no worker is left, and the next generation can be started. */
  predicate Between(a: Agent) {
    a.phase.Drained? || (a.phase.Listening? && a.timerArmed) || Changing(a.phase)
  }

  /** One step of the agent towards the next generation. */
  function Onward(a: Agent): Event
    requires Between(a)
  {
    match a.phase
    case Drained => AgentDoes(Arm)
    case Listening => AgentDoes(Fire(0))
    case Restarting(_) => AgentDoes(RestartWatcher)
    case Resizing(_) => AgentDoes(BeginResize)
    case _ => FinishResize
  }

  function Distance(phase: Phase): nat {
    match phase
    case Drained => 4
    case Listening => 3
    case Restarting(_) => 2
    case Resizing(_) => 1
    case _ => 0
  }

  lemma OnwardLeads(s: State)
    requires Inv(s) && Between(s.agent) && IsTurn(s.past.releases)
    ensures Enabled(s, Onward(s.agent))
    ensures var s' := Apply(s, Onward(s.agent));
            && s'.past.releases == s.past.releases && s'.done == s.done && s'.cfg == s.cfg
            && if s.agent.phase.AwaitingIdle? then s'.agent.phase == Starting(s.cfg.workerCount)
               else Between(s'.agent) && Distance(s'.agent.phase) < Distance(s.agent.phase)
  {
    hide Inv, IsTurn, RestartCounter, StopWatcher, LimitFor;
    TurnIsIdle(s);
  }

  lemma TurnIsIdle(s: State)
    requires Inv(s) && IsTurn(s.past.releases)
    ensures s.pool.sema.activeCount == 0
  {
    CountdownZero(s.past.releases);
    assert s.pool.sema.activeCount == CountedDown(s.past.releases);
  }

  lemma {:induction false} StartsAgain(s: State) returns (s': State)
    requires Inv(s) && Between(s.agent) && IsTurn(s.past.releases)
    ensures Leads(s, s', Tamely) && Inv(s') && s'.done == s.done && s'.cfg == s.cfg
    ensures s'.agent.phase == Starting(s.cfg.workerCount)
    decreases Distance(s.agent.phase)
  {
    hide Leads, Inv, Apply, Enabled;
    OnwardLeads(s);
    LeadsNowhere(s, Tamely);
    LeadsOn(s, s, Onward(s.agent), Tamely);
    s' := Apply(s, Onward(s.agent));
    LeadsKeepsInv(s, s', Tamely);
    if !s.agent.phase.AwaitingIdle? {
      var s1 := s';
      s' := StartsAgain(s1);
      LeadsFurther(s, s1, s', Tamely);
    }
  }

  lemma SpawnsFree(s: State) returns (s': State, i: nat)
    requires Inv(s) && s.agent.phase.Starting? && s.agent.phase.left > 0 && !s.done
    ensures Leads(s, s', Tamely) && Inv(s') && !s'.done && s'.cfg == s.cfg && Free(s', i)
  {
    hide Leads, Inv;
    OpenWhileNotDone(s);
    LeadsNowhere(s, Tamely);
    LeadsOn(s, s, Spawn, Tamely);
    s', i := Apply(s, Spawn), |s.workers|;
    LeadsKeepsInv(s, s', Tamely);
  }

  /** The agent listens to the current generation, or is about to. */
  predicate Hears(a: Agent) {
    a.phase == Starting(0) || (a.phase.Listening? && !a.timerArmed)
  }

  /** A pool in which nobody has an announcement to make yet, and nobody can come back, has a worker with a 429 that it
      has not acted on. */
  lemma SomebodyMet(s: State) returns (i: nat)
    requires Inv(s) && !s.done && !SomeReturns(s) && Hears(s.agent) && Offers(s) == 0 && s.cfg.workerCount > 0
    ensures i < |s.workers| && !Done(s, s.workers[i].gen)
    ensures var pc := s.workers[i].pc;
            (pc.Releasing? || pc.Reporting? || pc.Checking?) && pc.answer.TooMany?
  {
    OpenWhileNotDone(s);
    NotCancelledYet(s);
    i := OneOf(s.workers, s.pool.gen) by { assert Staffed(s); }
    assert LeftForCause(s) && LatePath(s, s.workers[i]);
    if Doomed(s.workers[i].pc) {
      CountPositive(s.workers, i, IsDoomed);
    }
    assert !Returns(s, s.workers[i]);
  }

  lemma NotCancelledYet(s: State)
    requires Inv(s) && Hears(s.agent) && Offers(s) == 0
    ensures s.pool.gen !in s.pool.cancelled
  {
    hide CountIf;
    if s.pool.gen in s.pool.cancelled {
      assert Spoken(s);
      var j :| 0 <= j < |s.workers| && s.workers[j].pc.Announcing?;
      CountPositive(s.workers, j, IsDoomed);
    }
  }

  lemma {:induction false} OneOf(ws: seq<Worker>, gen: nat) returns (i: nat)
    requires CountIf(ws, IsOf(gen)) > 0
    ensures i < |ws| && ws[i].gen == gen
  {
    if ws[|ws| - 1].gen == gen {
      i := |ws| - 1;
    } else {
      i := OneOf(ws[..|ws| - 1], gen);
    }
  }

  /** A worker with a 429 not acted on, whose context is not done, comes to cancel its generation. */
  lemma {:induction false} ComesToCancel(s: State, i: nat) returns (s': State)
    requires Inv(s) && i < |s.workers| && !Done(s, s.workers[i].gen)
    requires var pc := s.workers[i].pc;
             (pc.Releasing? || pc.Reporting? || pc.Checking?) && pc.answer.TooMany?
    ensures Leads(s, s', Tamely) && Inv(s') && s'.agent == s.agent && s'.cfg == s.cfg && s'.done == s.done
    ensures i < |s'.workers| == |s.workers| && s'.workers == s.workers[i := s'.workers[i]]
      && s'.workers[i].pc.Cancelling?
    ensures s'.past.releases + CountIf(s'.workers, IsHolding) == s.past.releases + CountIf(s.workers, IsHolding)
    ensures CountIf(s'.workers, IsDoomed) == CountIf(s.workers, IsDoomed) + 1
    decreases Rank(s.workers[i].pc)
  {
    hide Leads, Inv, StepOf, ActEnabled, NextWorker, CountIf, Has, Done, Rank, WayOut;
    var act := WayOut(s.workers[i].pc);
    MetStep(s, i);
    ApplyStep(s, i, act);
    LeadsNowhere(s, Tamely);
    LeadsOn(s, s, Step(i, act), Tamely);
    s' := Apply(s, Step(i, act));
    LeadsKeepsInv(s, s', Tamely);
    CountSet(s.workers, i, s'.workers[i], IsHolding);
    CountSet(s.workers, i, s'.workers[i], IsDoomed);
    if !s'.workers[i].pc.Cancelling? {
      var s1 := s';
      s' := ComesToCancel(s1, i);
      LeadsFurther(s, s1, s', Tamely);
      assert s'.workers == s.workers[i := s'.workers[i]];
    }
  }

  lemma MetStep(s: State, i: nat)
    requires Inv(s) && i < |s.workers| && !Done(s, s.workers[i].gen)
    requires var pc := s.workers[i].pc;
             (pc.Releasing? || pc.Reporting? || pc.Checking?) && pc.answer.TooMany?
    ensures var (act, w) := (WayOut(s.workers[i].pc), s.workers[i]);
            && ActEnabled(s, w, act) && Allows(Tamely, Step(i, act))
            && var (w', s') := (NextWorker(s, w, act), StepOf(s, i, act));
               && s'.workers == s.workers[i := w'] && s'.agent == s.agent && s'.cfg == s.cfg && s'.done == s.done
               && !Done(s', w'.gen) && Rank(w'.pc) < Rank(w.pc) + (if w'.pc.Cancelling? then 8 else 0)
               && (w'.pc.Cancelling? || ((w'.pc.Reporting? || w'.pc.Checking?) && w'.pc.answer.TooMany?))
               && s'.past.releases - s.past.releases ==
                  (if Has(w, IsHolding) then 1 else 0) - (if Has(w', IsHolding) then 1 else 0)
               && !Has(w, IsDoomed) && (Has(w', IsDoomed) <==> w'.pc.Cancelling?)
  {
    hide Inv, CountIf, ClosedAfter, CanAnswer, CanReceive, CanSend, Received, Sent;
    if s.workers[i].pc.Releasing? {
      HolderFindsToken(s, i);
    }
  }

  /** The only worker with an announcement to make makes it, and the agent waits with nobody in the way. */
  lemma {:induction false} OneIsHeard(s: State, i: nat) returns (s': State)
    requires Inv(s) && s.agent.phase.Listening? && !s.agent.timerArmed && s.cfg.counterCapacity > 0
    requires i < |s.workers| && Doomed(s.workers[i].pc) && CountIf(s.workers, IsDoomed) == 1
    ensures Leads(s, s', Tamely) && Clearing(s') && s'.agent.phase.Draining? && s'.cfg == s.cfg && s'.done == s.done
    ensures s'.past.releases + CountIf(s'.workers, IsHolding) == s.past.releases + CountIf(s.workers, IsHolding)
  {
    hide Leads, Inv, CountIf, Apply, Enabled;
    var s1 := s;
    LeadsNowhere(s, Tamely);
    if s.workers[i].pc.Cancelling? {
      CancelStep(s, i);
      LeadsOn(s, s, Step(i, Cancel), Tamely);
      s1 := Apply(s, Step(i, Cancel));
      LeadsKeepsInv(s, s1, Tamely);
      CountSet(s.workers, i, s1.workers[i], IsHolding);
      CountSet(s.workers, i, s1.workers[i], IsDoomed);
    }
    WatchedIsOpen(s1);
    AnnounceStep(s1, i);
    LeadsOn(s, s1, Step(i, Announce), Tamely);
    s' := Apply(s1, Step(i, Announce));
    LeadsKeepsInv(s, s', Tamely);
    CountSet(s1.workers, i, s'.workers[i], IsHolding);
    CountSet(s1.workers, i, s'.workers[i], IsDoomed);
    NoneCounted(s'.workers, IsDoomed);
  }

  lemma NoneCounted(ws: seq<Worker>, t: Trait)
    requires CountIf(ws, t) == 0
    ensures forall i :: 0 <= i < |ws| ==> !Has(ws[i], t)
  {
    forall i | 0 <= i < |ws| ensures !Has(ws[i], t) {
      if Has(ws[i], t) {
        CountPositive(ws, i, t);
      }
    }
  }

  lemma {:induction false} SomeCounted(ws: seq<Worker>, t: Trait) returns (i: nat)
    requires CountIf(ws, t) > 0
    ensures i < |ws| && Has(ws[i], t)
  {
    if Has(ws[|ws| - 1], t) {
      i := |ws| - 1;
    } else {
      i := SomeCounted(ws[..|ws| - 1], t);
    }
  }

  /** The agent comes to wait after an announcement, with nobody in the way. */
  lemma ComesToWait(s: State) returns (s': State)
    requires Inv(s) && !s.done && !SomeReturns(s) && Restarts(s) && Hears(s.agent) && s.cfg.counterCapacity > 0
    ensures Leads(s, s', Tamely) && Clearing(s') && s'.agent.phase.Draining? && s'.cfg == s.cfg && s'.done == s.done
    ensures s'.past.releases + CountIf(s'.workers, IsHolding) == s.past.releases + CountIf(s.workers, IsHolding)
  {
    hide Leads, Inv, CountIf, SomeReturns, Done;
    var s1 := s;
    LeadsNowhere(s, Tamely);
    if Offers(s) == 0 {
      var i := SomebodyMet(s);
      s1 := ComesToCancel(s, i);
    }
    var s2 := s1;
    if s1.agent.phase.Starting? {
      LeadsOn(s, s1, AgentDoes(StartReturns), Tamely);
      s2 := Apply(s1, AgentDoes(StartReturns));
      LeadsKeepsInv(s, s2, Tamely);
      StartsUnarmed(s1);
    }
    var j := SomeCounted(s2.workers, IsDoomed);
    s' := OneIsHeard(s2, j);
    LeadsFurther(s, s2, s', Tamely);
  }

  lemma StartsUnarmed(s: State)
    requires Inv(s) && s.agent.phase.Starting?
    ensures !s.agent.timerArmed
  {
  }

  /** A wait with nobody in the way ends. */
  lemma WaitEnds(s: State) returns (s': State)
    requires Clearing(s) && s.agent.phase.Draining?
    ensures Leads(s, s', Tamely) && Inv(s') && s'.agent.phase.Drained? && s'.cfg == s.cfg && s'.done == s.done
    ensures s'.past.releases == s.past.releases + CountIf(s.workers, IsHolding)
  {
    var s1 := Drain(s);
    hide Leads, Inv, CountIf, Clearing, Apply, Enabled;
    WaitCanReturn(s1);
    LeadsOn(s, s1, AgentDoes(WaitReturns), Tamely);
    s' := Apply(s1, AgentDoes(WaitReturns));
    LeadsKeepsInv(s1, s', Tamely) by { LeadsNowhere(s1, Tamely); LeadsOn(s1, s1, AgentDoes(WaitReturns), Tamely); }
  }

  /** Whatever the agent is doing, a pool that can be restarted gets between two generations. */
  lemma ComesBetween(s: State) returns (s': State)
    requires Inv(s) && !s.done && !SomeReturns(s) && Restarts(s) && s.cfg.counterCapacity > 0
    requires s.agent.phase.Starting? ==> s.agent.phase.left == 0
    ensures Leads(s, s', Tamely) && Inv(s') && Between(s'.agent) && s'.cfg == s.cfg && s'.done == s.done
    ensures IsTurn(s'.past.releases)
  {
    hide Leads, Inv, CountIf, SomeReturns, Clearing, IsTurn;
    OpenWhileNotDone(s);
    LeadsNowhere(s, Tamely);
    if Between(s.agent) {
      s' := s;
      BetweenIsEmpty(s);
    } else if s.agent.phase.Draining? {
      IsClearing(s);
      s' := WaitEnds(s);
    } else {
      var s1 := ComesToWait(s);
      s' := WaitEnds(s1);
      LeadsFurther(s, s1, s', Tamely);
    }
  }

  lemma IsClearing(s: State)
    requires Inv(s) && s.agent.phase.Draining? && CountIf(s.workers, IsDoomed) == 0 && s.cfg.counterCapacity > 0
    ensures Clearing(s)
  {
    hide Inv, CountIf;
    NoneCounted(s.workers, IsDoomed);
    forall i | 0 <= i < |s.workers| ensures !Doomed(s.workers[i].pc) {
      assert !Has(s.workers[i], IsDoomed);
    }
  }

  lemma BetweenIsEmpty(s: State)
    requires Inv(s) && Between(s.agent)
    ensures CountIf(s.workers, IsHolding) == 0
  {
    NobodyLeft(s);
  }

  /** The condition is exact: a worker can become free in a tame run if and only if the state allows it. */
  lemma FreeExactly(s: State)
    requires Inv(s) && s.cfg.counterCapacity > 0
    ensures CanFree(s) <==> exists s' :: Leads(s, s', Tamely) && !s'.done && exists i :: Free(s', i)
  {
    hide Leads, Inv, Free, CanFree;
    if CanFree(s) {
      var s', i := Frees(s);
    }
    if exists s' :: Leads(s, s', Tamely) && !s'.done && exists i :: Free(s', i) {
      var s' :| Leads(s, s', Tamely) && !s'.done && exists i :: Free(s', i);
      var i :| Free(s', i);
      FreeIsAllowed(s, s', i);
    }
  }

  /** A pool that can free a worker does. */
  lemma Frees(s: State) returns (s': State, i: nat)
    requires Inv(s) && CanFree(s) && s.cfg.counterCapacity > 0
    ensures Leads(s, s', Tamely) && Inv(s') && !s'.done && s'.cfg == s.cfg && Free(s', i)
  {
    hide Leads, Inv, CountIf, Returns;
    OpenWhileNotDone(s);
    if SomeReturns(s) {
      i :| 0 <= i < |s.workers| && Returns(s, s.workers[i]);
      s' := ComesBack(s, i);
    } else if s.agent.phase.Starting? && s.agent.phase.left > 0 {
      s', i := SpawnsFree(s);
    } else {
      var s1 := ComesBetween(s);
      var s2 := StartsAgain(s1);
      LeadsFurther(s, s1, s2, Tamely);
      s', i := SpawnsFree(s2);
      LeadsFurther(s, s2, s', Tamely);
    }
  }

  lemma FreeNow(s: State, i: nat)
    requires !s.done && Free(s, i)
    ensures CanFree(s)
  {
    assert Returns(s, s.workers[i]);
  }

  lemma FreeIsAllowed(s: State, s': State, i: nat)
    requires Inv(s) && Leads(s, s', Tamely) && !s'.done && Free(s', i)
    ensures CanFree(s)
  {
    hide Inv, Run, CanFree, Free;
    var es :| Drives(es, s, s', Tamely);
    FreeNow(s', i);
    if !CanFree(s) {
      RunKeepsBarred(s, es);
    }
  }

  lemma {:induction false} RunKeepsBarred(s: State, es: seq<Event>)
    requires Inv(s) && !CanFree(s) && Run(s, es).Some?
    ensures !CanFree(Run(s, es).value)
    decreases |es|
  {
    hide Inv, Enabled, Apply, CanFree;
    if es != [] {
      EventKeepsBarred(s, es[0]);
      EventKeeps(s, es[0]);
      RunKeepsBarred(Apply(s, es[0]), es[1..]);
    }
  }
}
