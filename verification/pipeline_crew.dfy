/** The workers of the current generation, in every reachable state of the pipeline: how many there are, why one has
    left, and who speaks for a generation that has been cancelled. */
module PipelineCrew {
  import opened Semaphores
  import opened Pipeline
  import opened PipelineLife
  import opened PipelineRates

  /** The current generation has all its workers, or the agent is still spawning them. */
  predicate Staffed(s: State) {
    CountIf(s.workers, IsOf(s.pool.gen)) + StillToSpawn(s.agent) == s.cfg.workerCount
  }

  /** A worker leaves only for its context being done, or the job channel closed. */
  predicate LeftForCause(s: State) {
    forall i :: 0 <= i < |s.workers| && IsLeaving(s.workers[i]) ==> Done(s, s.workers[i].gen) || s.jobsClosed
  }

  /** While the agent has heard nothing from the current generation, whoever cancelled it is still announcing. */
  predicate Spoken(s: State) {
    s.pool.gen in s.pool.cancelled && Stage(s.agent) == 0 ==>
      exists i :: 0 <= i < |s.workers| && s.workers[i].pc.Announcing?
  }

  ghost predicate Crew(s: State) {
    Staffed(s) && LeftForCause(s) && Spoken(s)
  }

  lemma StepLeavesCrew(s: State, i: nat, act: Act)
    requires Enabled(s, Step(i, act)) && !Quiet(s.agent) && Closings(s.agent, s.closed)
    requires s.workers[i].pc.Announcing? ==> s.workers[i].gen in s.pool.cancelled
    ensures var (s', w, w') := (StepOf(s, i, act), s.workers[i], NextWorker(s, s.workers[i], act));
            && w'.gen == w.gen && s'.pool.gen == s.pool.gen && s'.cfg == s.cfg && s'.done == s.done
              && s'.jobsClosed == s.jobsClosed
            && s.pool.cancelled <= s'.pool.cancelled && StillToSpawn(s'.agent) == StillToSpawn(s.agent)
            && (IsLeaving(w') ==> Done(s', w.gen) || s.jobsClosed || IsLeaving(w))
            && (s'.pool.cancelled != s.pool.cancelled ==> w'.pc.Announcing?)
            && (w.pc.Announcing? ==> w'.pc.Announcing? || Stage(s'.agent) != 0)
            && (Stage(s'.agent) == 0 ==> Stage(s.agent) == 0)
  {
    hide CanAnswer, CanSend, CanReceive, Sent, Received, PastAfter;
  }

  lemma StepKeepsCrew(s: State, i: nat, act: Act)
    requires Crew(s) && Enabled(s, Step(i, act)) && !Quiet(s.agent) && Closings(s.agent, s.closed)
    requires s.workers[i].pc.Announcing? ==> s.workers[i].gen in s.pool.cancelled
    ensures Crew(StepOf(s, i, act))
  {
    StepLeavesCrew(s, i, act);
    hide ActEnabled, CountIf, NextWorker, PoolAfter, AgentAfter, PastAfter, ClosedAfter, StillToSpawn, Stage, IsLeaving,
      Closings;
    var s' := StepOf(s, i, act);
    CountSet(s.workers, i, NextWorker(s, s.workers[i], act), IsOf(s.pool.gen));
    if s'.pool.gen in s'.pool.cancelled && Stage(s'.agent) == 0 {
      if s.pool.cancelled == s'.pool.cancelled {
        var j :| 0 <= j < |s.workers| && s.workers[j].pc.Announcing?;
        assert s'.workers[j].pc.Announcing?;
      } else {
        assert s'.workers[i].pc.Announcing?;
      }
    }
  }

  lemma {:induction false} NoneOfNext(ws: seq<Worker>, gen: nat)
    requires forall i :: 0 <= i < |ws| ==> ws[i].gen < gen
    ensures CountIf(ws, IsOf(gen)) == 0
  {
    if ws != [] {
      NoneOfNext(ws[..|ws| - 1], gen);
    }
  }

  lemma SpawnKeepsCrew(s: State)
    requires Crew(s) && Enabled(s, Spawn)
    ensures Crew(Apply(s, Spawn))
  {
    hide CountIf;
    var s' := Apply(s, Spawn);
    CountAppend(s.workers, Worker(s.pool.gen, Selecting, false), IsOf(s.pool.gen));
    if s.pool.gen in s.pool.cancelled && Stage(s.agent) == 0 {
      var j :| 0 <= j < |s.workers| && s.workers[j].pc.Announcing?;
      assert s'.workers[j].pc.Announcing?;
    }
  }

  lemma CancelledIsPast(s: State)
    requires Life(s) && CutOff(s)
    ensures forall gen :: gen in s.pool.cancelled ==> gen <= s.pool.gen
  {
    forall gen | gen in s.pool.cancelled ensures gen <= s.pool.gen {
      var i :| 0 <= i < |s.workers| && Canceller(s.workers[i], gen);
      assert OfGeneration(s.workers[i], s.pool.gen);
    }
  }

  lemma ResizeKeepsCrew(s: State)
    requires Crew(s) && Life(s) && CutOff(s) && Enabled(s, FinishResize)
    ensures Crew(Apply(s, FinishResize))
  {
    hide CountIf, LateCalls, LatePath, CanResize, Resized;
    NoneOfNext(s.workers, s.pool.gen + 1);
    CancelledIsPast(s);
  }

  lemma AgentKeepsCrew(s: State, move: AgentAct)
    requires Crew(s) && Closings(s.agent, s.closed) && Enabled(s, AgentDoes(move))
    ensures Crew(AgentStep(s, move))
  {
    hide CountIf, RestartCounter, StopWatcher, CloseOne, LimitFor;
  }

  lemma EventKeepsCrew(s: State, e: Event)
    requires Crew(s) && Life(s) && Closings(s.agent, s.closed) && CutOff(s) && Ways(s) && Enabled(s, e)
    ensures Crew(Apply(s, e))
  {
    hide StepOf, AgentStep, RoutineStep, AgentEnabled, RoutineEnabled, CountIf, CanResize, Resized, CutOff, Closings,
      Reported;
    match e {
      case Step(i, act) =>
        assert OnItsWay(s.past.sent, s.pool.cancelled, s.workers[i], i);
        ActorIsLive(s, i, act);
        LiveMeansBusy(s, i);
        StepKeepsCrew(s, i, act);
      case Spawn => SpawnKeepsCrew(s);
      case FinishResize => ResizeKeepsCrew(s);
      case AgentDoes(move) => AgentKeepsCrew(s, move);
      case _ =>
    }
  }
}
