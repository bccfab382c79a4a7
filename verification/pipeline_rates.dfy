/** Rate announcements, the cut-off they cause, and the resize guard, in every reachable state of the pipeline. */
module PipelineRates {
  import opened GoInt
  import opened Semaphores
  import opened Workers
  import opened Pipeline
  import opened PipelineLife

  // ---------------------------------------------------------------- the resize guard

  predicate PastRelease(w: Worker) {
    w.pc.Reporting? || w.pc.Checking? || w.pc.Cancelling? || w.pc.Announcing?
  }

  /** The counter is minus the number of releases modulo 2^64, and a later generation takes a full turn of it. */
  ghost predicate Guarded(s: State) {
    && s.pool.sema.activeCount == CountedDown(s.past.releases)
    && (s.pool.sema.blockAcquire <==> s.agent.phase.AwaitingIdle?)
    && (s.pool.gen > 0 ==> s.past.releases >= TWO64)
    && (s.agent.marks != [] ==> s.past.releases > 0)
    && (forall i :: 0 <= i < |s.workers| && PastRelease(s.workers[i]) ==> s.past.releases > 0)
  }

  lemma StepGuard(s: State, i: nat, act: Act)
    requires Enabled(s, Step(i, act)) && Guarded(s)
    ensures var s' := StepOf(s, i, act);
            && s'.pool.sema.activeCount == CountedDown(s'.past.releases)
            && s'.pool.sema.blockAcquire == s.pool.sema.blockAcquire
            && s'.pool.gen == s.pool.gen && s'.past.releases >= s.past.releases
            && (PastRelease(NextWorker(s, s.workers[i], act)) ==> s'.past.releases > 0)
            && (s'.agent.marks != s.agent.marks ==> s'.past.releases > 0)
            && (s'.agent.phase == s.agent.phase || (s.agent.phase.Listening? && s'.agent.phase.Draining?)
              || s.closed.rate)
  {
    hide Done, CanAnswer, CanSend, CountedDown, ClosedAfter, WrapU;
    CountdownStep(s.past.releases, 1);
  }

  lemma StepKeepsGuard(s: State, i: nat, act: Act)
    requires Guarded(s) && Enabled(s, Step(i, act)) && !s.closed.rate
    ensures Guarded(StepOf(s, i, act))
  {
    hide ActEnabled, NextWorker, PoolAfter, AgentAfter, PastAfter, ClosedAfter, CountedDown, PastRelease;
    StepGuard(s, i, act);
  }

  lemma AgentKeepsGuard(s: State, move: AgentAct)
    requires Guarded(s) && Staged(s) && Enabled(s, AgentDoes(move))
    ensures Guarded(AgentStep(s, move))
  {
    hide RestartCounter, StopWatcher, CloseOne, LimitFor, CountedDown;
  }

  lemma ResizeKeepsGuard(s: State)
    requires Guarded(s) && Staged(s) && Enabled(s, FinishResize)
    ensures Guarded(Apply(s, FinishResize))
  {
    hide CountedDown, PastRelease;
    CountdownZero(s.past.releases);
  }

  lemma EventKeepsGuard(s: State, e: Event)
    requires Life(s) && Closings(s.agent, s.closed) && Staged(s) && Guarded(s) && Enabled(s, e)
    ensures Guarded(Apply(s, e))
  {
    hide StepOf, AgentStep, RoutineStep, ActEnabled, AgentEnabled, RoutineEnabled, CountIf, CountedDown;
    match e {
      case Step(i, act) =>
        ActorIsLive(s, i, act);
        LiveMeansBusy(s, i);
        StepKeepsGuard(s, i, act);
      case AgentDoes(move) =>
        AgentKeepsGuard(s, move);
      case FinishResize =>
        ResizeKeepsGuard(s);
      case _ =>
    }
  }

  // ---------------------------------------------------------------- announcements

  /** How far the agent is in a generation's cycle: nothing heard yet, announcement received, timer fired. */
  function Stage(a: Agent): nat {
    if a.phase.Restarting? || a.phase.Resizing? || a.phase.AwaitingIdle? then 2
    else if a.phase.Draining? || a.phase.Drained? || a.timerArmed then 1
    else 0
  }

  ghost predicate Staged(s: State) {
    |s.agent.marks| == 2 * s.pool.gen + Stage(s.agent)
  }

  /** A worker whose 429 is already among the results. */
  ghost predicate Reported(sent: seq<Report>, i: nat, rate: Rate) {
    exists job :: Report(i, job, Answered(TooMany(rate))) in sent
  }

  predicate IsLeaving(w: Worker) {
    w.pc.Leaving? || w.pc.Gone?
  }

  /** A worker that has made its announcement: it has reported and cancelled before, and only leaves after. */
  ghost predicate Announcer(s: State, gen: nat, i: nat, rate: Rate) {
    && i < |s.workers| && s.workers[i].gen == gen
    && IsLeaving(s.workers[i])
    && gen in s.pool.cancelled && Reported(s.past.sent, i, rate)
  }

  ghost predicate MarkOk(s: State, k: nat)
    requires k < |s.agent.marks|
  {
    match s.agent.marks[k]
    case Fired(gen, _) => k == 2 * gen + 1
    case Announced(gen, i, rate) => k == 2 * gen && Announcer(s, gen, i, rate)
  }

  /** A worker on its way to announce has reported its 429, and cancelled before it offers it. */
  ghost predicate OnItsWay(sent: seq<Report>, cancelled: set<nat>, w: Worker, i: nat) {
    && (w.pc.Checking? && w.pc.answer.TooMany? ==> Reported(sent, i, w.pc.answer.rate))
    && (w.pc.Cancelling? || w.pc.Announcing? ==> Reported(sent, i, w.pc.rate))
    && (w.pc.Announcing? ==> w.gen in cancelled)
  }

  ghost predicate Marks(s: State) {
    forall k :: 0 <= k < |s.agent.marks| ==> MarkOk(s, k)
  }

  ghost predicate Ways(s: State) {
    forall i :: 0 <= i < |s.workers| ==> OnItsWay(s.past.sent, s.pool.cancelled, s.workers[i], i)
  }

  ghost predicate Announcements(s: State) {
    Marks(s) && Ways(s)
  }

  lemma StepWay(s: State, i: nat, act: Act)
    requires Enabled(s, Step(i, act)) && OnItsWay(s.past.sent, s.pool.cancelled, s.workers[i], i)
    ensures var (s', w, w') := (StepOf(s, i, act), s.workers[i], NextWorker(s, s.workers[i], act));
            && OnItsWay(s'.past.sent, s'.pool.cancelled, w', i)
            && s.past.sent <= s'.past.sent && s.pool.cancelled <= s'.pool.cancelled
            && s'.pool.gen == s.pool.gen && w'.gen == w.gen && (IsLeaving(w) ==> IsLeaving(w'))
  {
    hide Done, CanAnswer, CanSend, CanReceive, ClosedAfter, AgentAfter, Sent, Received;
    if act.SendResult? {
      var w := s.workers[i];
      assert Report(i, w.pc.job, Answered(w.pc.answer)) in StepOf(s, i, act).past.sent;
    }
  }

  /** The agent hears of a worker only when that worker hands over its announcement. */
  lemma StepHeard(s: State, i: nat, act: Act)
    requires Enabled(s, Step(i, act)) && OnItsWay(s.past.sent, s.pool.cancelled, s.workers[i], i)
    ensures var (s', w) := (StepOf(s, i, act), s.workers[i]);
            s'.agent == s.agent ||
            (&& act.Announce? && w.pc.Announcing? && !s.closed.rate && s.agent.phase.Listening?
              && s'.agent.phase.Draining?
             && s'.agent.timerArmed == s.agent.timerArmed && s'.agent.rate == w.pc.rate
             && s'.agent.marks == s.agent.marks + [Announced(w.gen, i, w.pc.rate)]
             && IsLeaving(NextWorker(s, w, act)) && w.gen in s.pool.cancelled && Reported(s.past.sent, i, w.pc.rate))
  {
    hide Done, CanAnswer, CanSend, CanReceive, ClosedAfter, PastAfter, PoolAfter, Reported;
  }

  lemma ReportsStay(sent: seq<Report>, sent': seq<Report>, i: nat, rate: Rate)
    requires sent <= sent' && Reported(sent, i, rate)
    ensures Reported(sent', i, rate)
  {
    var job :| Report(i, job, Answered(TooMany(rate))) in sent;
    assert Report(i, job, Answered(TooMany(rate))) in sent';
  }

  lemma WayStays(sent: seq<Report>, cancelled: set<nat>, sent': seq<Report>, cancelled': set<nat>, w: Worker, i: nat)
    requires OnItsWay(sent, cancelled, w, i) && sent <= sent' && cancelled <= cancelled'
    ensures OnItsWay(sent', cancelled', w, i)
  {
    hide Reported;
    if w.pc.Checking? && w.pc.answer.TooMany? {
      ReportsStay(sent, sent', i, w.pc.answer.rate);
    } else if w.pc.Cancelling? || w.pc.Announcing? {
      ReportsStay(sent, sent', i, w.pc.rate);
    }
  }

  lemma MarkStays(s: State, s': State, k: nat)
    requires k < |s.agent.marks| && k < |s'.agent.marks| && s'.agent.marks[k] == s.agent.marks[k] && MarkOk(s, k)
    requires s.past.sent <= s'.past.sent && s.pool.cancelled <= s'.pool.cancelled && |s.workers| <= |s'.workers|
    requires forall i :: 0 <= i < |s.workers| ==>
               s'.workers[i].gen == s.workers[i].gen && (IsLeaving(s.workers[i]) ==> IsLeaving(s'.workers[i]))
    ensures MarkOk(s', k)
  {
    hide Reported;
    var m := s.agent.marks[k];
    if m.Announced? {
      ReportsStay(s.past.sent, s'.past.sent, m.worker, m.rate);
    }
  }

  lemma StepKeepsWays(s: State, i: nat, act: Act)
    requires Ways(s) && Enabled(s, Step(i, act))
    ensures Ways(StepOf(s, i, act))
  {
    hide ActEnabled, NextWorker, PoolAfter, AgentAfter, PastAfter, ClosedAfter, OnItsWay;
    var s' := StepOf(s, i, act);
    StepWay(s, i, act);
    forall j | 0 <= j < |s'.workers| ensures OnItsWay(s'.past.sent, s'.pool.cancelled, s'.workers[j], j) {
      if j != i {
        WayStays(s.past.sent, s.pool.cancelled, s'.past.sent, s'.pool.cancelled, s.workers[j], j);
      }
    }
  }

  lemma StepKeepsMarks(s: State, i: nat, act: Act)
    requires Staged(s) && Ways(s) && Marks(s) && Enabled(s, Step(i, act))
    requires OfGeneration(s.workers[i], s.pool.gen) && !s.workers[i].pc.Gone? && !Quiet(s.agent)
    ensures Staged(StepOf(s, i, act)) && Marks(StepOf(s, i, act))
  {
    hide ActEnabled, NextWorker, PoolAfter, AgentAfter, PastAfter, ClosedAfter, Reported, IsLeaving, OnItsWay, MarkOk;
    var s' := StepOf(s, i, act);
    StepWay(s, i, act);
    StepHeard(s, i, act);
    forall k | 0 <= k < |s'.agent.marks| ensures MarkOk(s', k) {
      if k < |s.agent.marks| {
        MarkStays(s, s', k);
      } else {
        NewMark(s, s', i);
      }
    }
  }

  lemma NewMark(s: State, s': State, i: nat)
    requires i < |s.workers| == |s'.workers| && |s.agent.marks| == 2 * s.workers[i].gen
    requires s.workers[i].pc.Announcing?
    requires s'.agent.marks == s.agent.marks + [Announced(s.workers[i].gen, i, s.workers[i].pc.rate)]
    requires s'.workers[i].gen == s.workers[i].gen && IsLeaving(s'.workers[i])
    requires s.workers[i].gen in s.pool.cancelled && s.pool.cancelled <= s'.pool.cancelled
    requires s.past.sent <= s'.past.sent && Reported(s.past.sent, i, s.workers[i].pc.rate)
    ensures MarkOk(s', |s.agent.marks|)
  {
    hide Reported;
    ReportsStay(s.past.sent, s'.past.sent, i, s.workers[i].pc.rate);
  }

  lemma AgentKeepsMarks(s: State, move: AgentAct)
    requires Closings(s.agent, s.closed) && Staged(s) && Marks(s) && Enabled(s, AgentDoes(move))
    ensures Staged(AgentStep(s, move)) && Marks(AgentStep(s, move))
  {
    hide RoutineStep, StopWatcher, RestartCounter, MarkOk, LimitFor, CloseOne;
    var s' := AgentStep(s, move);
    forall k | 0 <= k < |s'.agent.marks| ensures MarkOk(s', k) {
      if k < |s.agent.marks| {
        MarkStays(s, s', k);
      } else {
        FiringMark(s', k);
      }
    }
  }

  lemma FiringMark(s: State, k: nat)
    requires k < |s.agent.marks| && s.agent.marks[k].Fired? && k == 2 * s.agent.marks[k].gen + 1
    ensures MarkOk(s, k)
  {
  }

  lemma OthersKeepMarks(s: State, e: Event)
    requires Closings(s.agent, s.closed) && Staged(s) && Marks(s) && Enabled(s, e) && !e.Step? && !e.AgentDoes?
    ensures Staged(Apply(s, e)) && Marks(Apply(s, e))
  {
    hide RoutineStep, RoutineEnabled, MarkOk, Resized, CanResize;
    var s' := Apply(s, e);
    forall k | 0 <= k < |s'.agent.marks| ensures MarkOk(s', k) {
      MarkStays(s, s', k);
    }
  }

  lemma OthersKeepWays(s: State, e: Event)
    requires Ways(s) && Enabled(s, e) && !e.Step?
    ensures Ways(Apply(s, e))
  {
    hide RoutineStep, StopWatcher, RestartCounter, Reported, RoutineEnabled, NextPhase, CloseOne, Resized, CanResize;
  }

  lemma EventKeepsAnnouncements(s: State, e: Event)
    requires Life(s) && Closings(s.agent, s.closed) && Staged(s) && Announcements(s) && Enabled(s, e)
    ensures Announcements(Apply(s, e)) && Staged(Apply(s, e))
  {
    hide StepOf, AgentStep, RoutineStep, Staged, Ways, Marks, Closings, ActEnabled, AgentEnabled, RoutineEnabled,
      CountIf;
    match e {
      case Step(i, act) =>
        ActorIsLive(s, i, act);
        LiveMeansBusy(s, i);
        StepKeepsWays(s, i, act);
        StepKeepsMarks(s, i, act);
      case AgentDoes(move) =>
        OthersKeepWays(s, e);
        AgentKeepsMarks(s, move);
      case _ =>
        OthersKeepWays(s, e);
        OthersKeepMarks(s, e);
    }
  }

  // ---------------------------------------------------------------- a worker's last word

  predicate IsTooMany(r: Report) {
    r.outcome.Answered? && r.outcome.answer.TooMany?
  }

  /** A worker that has reported a 429 does not get back to the top of its loop. */
  predicate Ending(w: Worker) {
    (w.pc.Checking? && w.pc.answer.TooMany?) || w.pc.Cancelling? || w.pc.Announcing? || w.pc.Leaving? || w.pc.Gone?
  }

  ghost predicate LastWords(s: State) {
    && (forall r :: 0 <= r < |s.past.sent| ==> s.past.sent[r].worker < |s.workers|)
    && (forall r :: 0 <= r < |s.past.sent| && IsTooMany(s.past.sent[r]) ==> Ending(s.workers[s.past.sent[r].worker]))
    && (forall q, r :: 0 <= q < r < |s.past.sent| && s.past.sent[q].worker == s.past.sent[r].worker ==>
          !IsTooMany(s.past.sent[q]))
  }

  lemma StepWords(s: State, i: nat, act: Act)
    requires Enabled(s, Step(i, act))
    ensures var (s', w') := (StepOf(s, i, act), NextWorker(s, s.workers[i], act));
            && (Ending(s.workers[i]) ==> Ending(w') && s'.past.sent == s.past.sent)
            && (s'.past.sent == s.past.sent ||
                (&& |s'.past.sent| == |s.past.sent| + 1 && s.past.sent <= s'.past.sent
                 && s'.past.sent[|s.past.sent|].worker == i
                 && (IsTooMany(s'.past.sent[|s.past.sent|]) ==> Ending(w'))))
  {
    hide Done, CanAnswer, CanSend, CanReceive, PoolAfter, AgentAfter, ClosedAfter;
  }

  lemma EventKeepsWords(s: State, e: Event)
    requires LastWords(s) && Enabled(s, e)
    ensures LastWords(Apply(s, e))
  {
    hide RoutineStep, StartWatcher, StopWatcher, RestartCounter, ActEnabled, NextWorker, PoolAfter, AgentAfter,
      PastAfter, ClosedAfter, Ending, IsTooMany;
    if e.Step? {
      StepWords(s, e.i, e.act);
    }
  }

  // ---------------------------------------------------------------- the cut-off

  /** Calls of a generation begun after a worker cancelled it. */
  function LateCalls(calls: seq<Call>, gen: nat): nat {
    if calls == [] then 0
    else LateCalls(calls[..|calls| - 1], gen) + if calls[|calls| - 1] == Call(gen, true) then 1 else 0
  }

  /** A worker that began a call under a done context never gets back to the top of its loop. */
  predicate LatePath(s: State, w: Worker) {
    w.late ==>
      && Done(s, w.gen)
      && match w.pc
         case InCall(_) => true
         case Releasing(_, a) => a.TooMany? || a.Failed?
         case Reporting(_, a) => a.TooMany? || a.Failed?
         case Checking(_) => true
         case Leaving => true
         case Gone => true
         case _ => false
  }

  /** The worker that cancelled a generation. */
  predicate Canceller(w: Worker, gen: nat) {
    w.gen == gen && !w.late && (w.pc.Announcing? || w.pc.Leaving? || w.pc.Gone?)
  }

  function StillToSpawn(a: Agent): nat {
    if a.phase.Starting? then a.phase.left else 0
  }

  ghost predicate CutOff(s: State) {
    && (forall i :: 0 <= i < |s.workers| ==> LatePath(s, s.workers[i]))
    && (forall g: nat :: LateCalls(s.past.calls, g) <= CountIf(s.workers, IsLate(g)))
    && (forall g: nat :: CountIf(s.workers, IsOf(g)) +
          (if g == s.pool.gen then StillToSpawn(s.agent) else if g > s.pool.gen then s.cfg.workerCount else 0)
          <= s.cfg.workerCount)
    && (forall g :: g in s.pool.cancelled ==> exists i :: 0 <= i < |s.workers| && Canceller(s.workers[i], g))
  }

  lemma StepCutOff(s: State, i: nat, act: Act)
    requires Enabled(s, Step(i, act)) && LatePath(s, s.workers[i])
    ensures var (s', w, w') := (StepOf(s, i, act), s.workers[i], NextWorker(s, s.workers[i], act));
            && LatePath(s', w') && w'.gen == w.gen && (w.late ==> w'.late)
            && s'.pool.gen == s.pool.gen && StillToSpawn(s'.agent) <= StillToSpawn(s.agent)
            && s.pool.cancelled <= s'.pool.cancelled <= s.pool.cancelled + {w.gen}
            && (s'.pool.cancelled != s.pool.cancelled ==> Canceller(w', w.gen))
            && (forall g :: Canceller(w, g) ==> Canceller(w', g))
            && (s'.past.calls == s.past.calls ||
                (&& s'.past.calls == s.past.calls + [Call(w.gen, w.gen in s.pool.cancelled)]
                 && !w.late && (w.gen in s.pool.cancelled ==> w'.late)))
  {
    hide CanSend, CanReceive, ClosedAfter, Sent, Received;
  }

  lemma LateCallsAppend(calls: seq<Call>, c: Call, gen: nat)
    ensures LateCalls(calls + [c], gen) == LateCalls(calls, gen) + if c == Call(gen, true) then 1 else 0
  {
    assert (calls + [c])[..|calls|] == calls;
  }

  lemma StepKeepsCutOff(s: State, i: nat, act: Act)
    requires CutOff(s) && Enabled(s, Step(i, act))
    ensures CutOff(StepOf(s, i, act))
  {
    hide ActEnabled, CountIf, NextWorker, PoolAfter, AgentAfter, PastAfter, ClosedAfter, LateCalls, Canceller,
      StillToSpawn;
    var (s', w') := (StepOf(s, i, act), NextWorker(s, s.workers[i], act));
    StepCutOff(s, i, act);
    forall g: nat ensures LateCalls(s'.past.calls, g) <= CountIf(s'.workers, IsLate(g)) {
      CountSet(s.workers, i, w', IsLate(g));
      LateCallsAppend(s.past.calls, Call(s.workers[i].gen, s.workers[i].gen in s.pool.cancelled), g);
    }
    forall g: nat ensures CountIf(s'.workers, IsOf(g)) == CountIf(s.workers, IsOf(g)) {
      CountSet(s.workers, i, w', IsOf(g));
    }
    forall g | g in s'.pool.cancelled ensures exists j :: 0 <= j < |s'.workers| && Canceller(s'.workers[j], g) {
      if g in s.pool.cancelled {
        var j :| 0 <= j < |s.workers| && Canceller(s.workers[j], g);
        assert Canceller(s'.workers[j], g);
      } else {
        assert Canceller(s'.workers[i], g);
      }
    }
  }

  lemma SpawnKeepsCutOff(s: State)
    requires CutOff(s) && Enabled(s, Spawn)
    ensures CutOff(Apply(s, Spawn))
  {
    hide CountIf, LateCalls, Canceller;
    var s' := Apply(s, Spawn);
    var w := Worker(s.pool.gen, Selecting, false);
    forall g: nat ensures CountIf(s'.workers, IsLate(g)) == CountIf(s.workers, IsLate(g)) {
      CountAppend(s.workers, w, IsLate(g));
    }
    forall g: nat
      ensures CountIf(s'.workers, IsOf(g)) == CountIf(s.workers, IsOf(g)) + if g == s.pool.gen then 1 else 0
    {
      CountAppend(s.workers, w, IsOf(g));
    }
    forall g | g in s'.pool.cancelled ensures exists j :: 0 <= j < |s'.workers| && Canceller(s'.workers[j], g) {
      var j :| 0 <= j < |s.workers| && Canceller(s.workers[j], g);
      assert Canceller(s'.workers[j], g);
    }
  }

  /** Any event that leaves the workers alone lets no more of them be spawned and takes no cancellation back. */
  lemma OthersLeaveWorkers(s: State, e: Event)
    requires Enabled(s, e) && !e.Step? && !e.Spawn?
    ensures var s' := Apply(s, e);
            && s'.workers == s.workers && s'.cfg == s.cfg && s'.past.calls == s.past.calls
            && s'.pool.cancelled == s.pool.cancelled && (s.done ==> s'.done)
            && s.pool.gen <= s'.pool.gen
            && StillToSpawn(s'.agent) <=
              if s'.pool.gen == s.pool.gen then StillToSpawn(s.agent) else s.cfg.workerCount
  {
    hide RoutineStep, RoutineEnabled, StopWatcher, RestartCounter, CloseOne, LimitFor, Resized, CanResize;
  }

  lemma OthersKeepCutOff(s: State, e: Event)
    requires CutOff(s) && Enabled(s, e) && !e.Step? && !e.Spawn?
    ensures CutOff(Apply(s, e))
  {
    hide Apply, Enabled, CountIf, LateCalls, Canceller, StillToSpawn;
    OthersLeaveWorkers(s, e);
    var s' := Apply(s, e);
    forall i | 0 <= i < |s.workers| ensures LatePath(s', s.workers[i]) {
      assert LatePath(s, s.workers[i]);
    }
  }

  lemma EventKeepsCutOff(s: State, e: Event)
    requires CutOff(s) && Enabled(s, e)
    ensures CutOff(Apply(s, e))
  {
    hide CutOff, StepOf, Apply, Enabled;
    match e {
      case Step(i, act) =>
        ApplyStep(s, i, act);
        StepKeepsCutOff(s, i, act);
      case Spawn => SpawnKeepsCutOff(s);
      case _ => OthersKeepCutOff(s, e);
    }
  }

  /** One member of a generation that is not late leaves at most the others to be late. */
  lemma {:induction false} LateAreFewer(ws: seq<Worker>, gen: nat)
    ensures CountIf(ws, IsLate(gen)) <= CountIf(ws, IsOf(gen))
    ensures (exists i :: 0 <= i < |ws| && ws[i].gen == gen && !ws[i].late) ==>
              CountIf(ws, IsLate(gen)) < CountIf(ws, IsOf(gen))
  {
    if ws != [] {
      var front := ws[..|ws| - 1];
      LateAreFewer(front, gen);
      if i :| 0 <= i < |ws| && ws[i].gen == gen && !ws[i].late {
        assert i < |front| ==> front[i] == ws[i];
      }
    }
  }
}
