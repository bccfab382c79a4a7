/** Jobs, requests and the request counter, in every reachable state of the pipeline. */
module PipelineJobs {
  import opened Results
  import opened Semaphores
  import opened Workers
  import opened Pipeline
  import opened PipelineLife

  // ---------------------------------------------------------------- jobs

  /** Every job taken has been reported or is in some worker's hands, and not both. */
  ghost predicate Conserved(s: State) {
    multiset(s.past.taken) == multiset(Jobs(s.past.sent)) + Held(s.workers)
  }

  lemma {:induction false} HeldSet(ws: seq<Worker>, i: nat, w: Worker)
    requires i < |ws|
    ensures Held(ws[i := w]) + JobOf(ws[i]) == Held(ws) + JobOf(w)
  {
    hide JobOf;
    var last := |ws| - 1;
    if i == last {
      assert ws[i := w][..last] == ws[..last];
    } else {
      assert ws[i := w][..last] == ws[..last][i := w];
      HeldSet(ws[..last], i, w);
      var front, front' := Held(ws[..last]), Held(ws[..last][i := w]);
      calc {
        front' + JobOf(ws[last]) + JobOf(ws[i]);
        (front' + JobOf(ws[i])) + JobOf(ws[last]);
        (front + JobOf(w)) + JobOf(ws[last]);
        front + JobOf(ws[last]) + JobOf(w);
      }
    }
  }

  /** The job an action takes from the channel, ... */
  function TakenBy(act: Act): seq<string> {
    if act.Take? then [act.job] else []
  }

  /** ... and the result it sends, if any. */
  function SentBy(i: nat, w: Worker, act: Act): seq<Report> {
    if act.SendRefused? && w.pc.Dropping? then [Report(i, w.pc.job, Refused)]
    else if act.SendResult? && w.pc.Reporting? then [Report(i, w.pc.job, Answered(w.pc.answer))]
    else []
  }

  lemma StepHistory(s: State, i: nat, act: Act)
    requires Enabled(s, Step(i, act))
    ensures PastAfter(s, i, s.workers[i], act).taken == s.past.taken + TakenBy(act)
    ensures PastAfter(s, i, s.workers[i], act).sent == s.past.sent + SentBy(i, s.workers[i], act)
  {
    hide Done, CanAnswer, CanSend, CanReceive;
  }

  lemma JobsAppend(sent: seq<Report>, more: seq<Report>)
    ensures Jobs(sent + more) == Jobs(sent) + Jobs(more)
  {
  }

  /** A worker takes a job only with empty hands, reports the one it has, and keeps it otherwise. */
  lemma StepHolds(s: State, i: nat, act: Act)
    requires Enabled(s, Step(i, act))
    ensures var (h, h') := (InHand(s.workers[i].pc), InHand(NextPc(s, s.workers[i], act)));
            if act.Take? then h == None && h' == Some(act.job)
            else if act.SendRefused? || act.SendResult? then h.Some? && h' == None
            else h' == h
  {
    hide Done, CanAnswer, CanSend, CanReceive;
  }

  lemma StepMovesJob(s: State, i: nat, act: Act)
    requires Enabled(s, Step(i, act))
    ensures JobOf(s.workers[i]) + multiset(TakenBy(act)) ==
            JobOf(NextWorker(s, s.workers[i], act)) + multiset(Jobs(SentBy(i, s.workers[i], act)))
  {
    hide NextPc, InHand, Done, CanAnswer, CanSend, CanReceive;
    var w := s.workers[i];
    StepHolds(s, i, act);
    ReportedIsInHand(s, i, act);
  }

  lemma ReportedIsInHand(s: State, i: nat, act: Act)
    requires Enabled(s, Step(i, act))
    ensures act.SendRefused? || act.SendResult? ==>
              InHand(s.workers[i].pc).Some? && Jobs(SentBy(i, s.workers[i], act)) == [InHand(s.workers[i].pc).value]
    ensures !act.SendRefused? && !act.SendResult? ==> Jobs(SentBy(i, s.workers[i], act)) == []
  {
    hide NextPc, Done, CanAnswer, CanSend, CanReceive;
  }

  lemma StepRecordsJob(s: State, i: nat, act: Act)
    requires Enabled(s, Step(i, act))
    ensures var past' := PastAfter(s, i, s.workers[i], act);
            && multiset(past'.taken) == multiset(s.past.taken) + multiset(TakenBy(act))
            && multiset(Jobs(past'.sent)) == multiset(Jobs(s.past.sent)) + multiset(Jobs(SentBy(i, s.workers[i], act)))
  {
    hide ActEnabled, PastAfter, Jobs, TakenBy, SentBy;
    StepHistory(s, i, act);
    JobsAppend(s.past.sent, SentBy(i, s.workers[i], act));
  }

  lemma Balance(t: multiset<string>, r: multiset<string>, h: multiset<string>, h': multiset<string>,
                j: multiset<string>, j': multiset<string>, a: multiset<string>, b: multiset<string>)
    requires t == r + h && h' + j == h + j' && j + a == j' + b
    ensures t + a == r + b + h'
  {
    forall x ensures (t + a)[x] == (r + b + h')[x] {
      assert (h' + j)[x] == (h + j')[x] && (j + a)[x] == (j' + b)[x];
    }
  }

  lemma EventKeepsJobs(s: State, e: Event)
    requires Conserved(s) && Enabled(s, e)
    ensures Conserved(Apply(s, e))
  {
    hide RoutineStep, StartWatcher, StopWatcher, ActEnabled, Jobs, Held, JobOf, PastAfter, NextWorker, PoolAfter,
      AgentAfter, TakenBy, SentBy;
    match e {
      case Step(i, act) =>
        var w' := NextWorker(s, s.workers[i], act);
        StepMovesJob(s, i, act);
        StepRecordsJob(s, i, act);
        HeldSet(s.workers, i, w');
        Balance(multiset(s.past.taken), multiset(Jobs(s.past.sent)), Held(s.workers), Held(s.workers[i := w']),
                JobOf(s.workers[i]), JobOf(w'), multiset(TakenBy(act)), multiset(Jobs(SentBy(i, s.workers[i], act))));
      case Spawn =>
        SpawnHoldsNothing(s.workers, s.pool.gen);
      case _ =>
    }
  }

  lemma SpawnHoldsNothing(ws: seq<Worker>, gen: nat)
    ensures Held(ws + [Worker(gen, Selecting, false)]) == Held(ws)
  {
    assert (ws + [Worker(gen, Selecting, false)])[..|ws|] == ws;
  }

  lemma {:induction false} NothingHeld(ws: seq<Worker>)
    requires forall i :: 0 <= i < |ws| ==> ws[i].pc.Gone?
    ensures Held(ws) == multiset{}
  {
    if ws != [] {
      NothingHeld(ws[..|ws| - 1]);
    }
  }

  // ---------------------------------------------------------------- requests

  /** Results that carry a client's answer rather than the pool's own refusal. */
  function AnsweredCount(sent: seq<Report>): nat {
    if sent == [] then 0 else AnsweredCount(sent[..|sent| - 1]) + if sent[|sent| - 1].outcome.Answered? then 1 else 0
  }

  ghost predicate Requests(s: State) {
    && s.past.counted == |s.past.calls| + CountIf(s.workers, IsBeforeCall)
    && s.past.counted == AnsweredCount(s.past.sent) + CountIf(s.workers, IsUnreported)
  }

  lemma StepCalls(s: State, i: nat, act: Act)
    requires Enabled(s, Step(i, act))
    ensures var (w, w') := (s.workers[i], NextWorker(s, s.workers[i], act));
            var (past, past') := (s.past, PastAfter(s, i, s.workers[i], act));
            past'.counted - |past'.calls| - (if Has(w', IsBeforeCall) then 1 else 0) ==
            past.counted - |past.calls| - (if Has(w, IsBeforeCall) then 1 else 0)
  {
    hide Done, CanAnswer, CanSend, CanReceive;
  }

  lemma AnsweredAppend(sent: seq<Report>, r: Report)
    ensures AnsweredCount(sent + [r]) == AnsweredCount(sent) + if r.outcome.Answered? then 1 else 0
  {
    assert (sent + [r])[..|sent|] == sent;
  }

  lemma StepAnswers(s: State, i: nat, act: Act)
    requires Enabled(s, Step(i, act))
    ensures var (w, w') := (s.workers[i], NextWorker(s, s.workers[i], act));
            var (past, past') := (s.past, PastAfter(s, i, s.workers[i], act));
            past'.counted - AnsweredCount(past'.sent) - (if Has(w', IsUnreported) then 1 else 0) ==
            past.counted - AnsweredCount(past.sent) - (if Has(w, IsUnreported) then 1 else 0)
  {
    hide Done, CanAnswer, CanSend, CanReceive, AnsweredCount;
    var w := s.workers[i];
    if act.SendRefused? {
      AnsweredAppend(s.past.sent, Report(i, w.pc.job, Refused));
    } else if act.SendResult? {
      AnsweredAppend(s.past.sent, Report(i, w.pc.job, Answered(w.pc.answer)));
    }
  }

  lemma EventKeepsRequests(s: State, e: Event)
    requires Requests(s) && Enabled(s, e)
    ensures Requests(Apply(s, e))
  {
    hide RoutineStep, StartWatcher, StopWatcher, ActEnabled, CountIf, AnsweredCount, PastAfter, NextWorker, PoolAfter,
      AgentAfter;
    match e {
      case Step(i, act) =>
        var w' := NextWorker(s, s.workers[i], act);
        StepCalls(s, i, act);
        StepAnswers(s, i, act);
        CountSet(s.workers, i, w', IsBeforeCall);
        CountSet(s.workers, i, w', IsUnreported);
      case Spawn =>
        CountAppend(s.workers, Worker(s.pool.gen, Selecting, false), IsBeforeCall);
        CountAppend(s.workers, Worker(s.pool.gen, Selecting, false), IsUnreported);
      case _ =>
    }
  }

  // ---------------------------------------------------------------- the request counter

  function LastRoutine(w: Watcher): Routine
    requires w.routines != []
  {
    w.routines[|w.routines| - 1]
  }

  /** With at most one goroutine at work, no increment is lost: what was counted since the start, and what was buffered
      then, is now in the counter, in the buffer, or in the goroutine's hands. */
  ghost predicate Accounted(c: Counter, counted: nat, capacity: nat) {
    && c.buffered <= capacity && c.bufferedThen <= capacity && c.countedThen <= counted
    && c.watcher.stops != [] && c.watcher.routines != []
    && (c.sole ==>
          && (forall r :: 0 <= r < |c.watcher.routines| - 1 ==> c.watcher.routines[r].Exited?)
          && (LastRoutine(c.watcher).Storing? ==> LastRoutine(c.watcher).read == c.watcher.count)
          && counted - c.countedThen + c.bufferedThen ==
             c.buffered + c.watcher.count + if LastRoutine(c.watcher).Storing? then 1 else 0)
  }

  lemma RoutineKeepsCounter(s: State, r: nat, tick: RoutineAct)
    requires Enabled(s, RoutineDoes(r, tick)) && Accounted(s.counter, s.past.counted, s.cfg.counterCapacity)
    ensures Accounted(RoutineStep(s.counter, s.closed.requests, r, tick), s.past.counted, s.cfg.counterCapacity)
  {
  }

  lemma RestartKeepsCounter(c: Counter, counted: nat, capacity: nat)
    requires Accounted(c, counted, capacity)
    ensures Accounted(RestartCounter(c, counted), counted, capacity)
  {
  }

  lemma StepKeepsCounter(s: State, i: nat, act: Act)
    requires !s.closed.requests && Enabled(s, Step(i, act))
    requires Accounted(s.counter, s.past.counted, s.cfg.counterCapacity)
    ensures var s' := StepOf(s, i, act); Accounted(s'.counter, s'.past.counted, s'.cfg.counterCapacity)
  {
    hide NextWorker, PoolAfter, AgentAfter, ClosedAfter, Done, CanAnswer, CanSend, CanReceive;
  }

  lemma AgentKeepsCounter(s: State, move: AgentAct)
    requires Enabled(s, AgentDoes(move)) && Accounted(s.counter, s.past.counted, s.cfg.counterCapacity)
    ensures var s' := AgentStep(s, move); Accounted(s'.counter, s'.past.counted, s'.cfg.counterCapacity)
  {
    hide RestartCounter, LimitFor, CloseOne;
    RestartKeepsCounter(s.counter, s.past.counted, s.cfg.counterCapacity);
  }

  lemma EventKeepsCounter(s: State, e: Event)
    requires Life(s) && Closings(s.agent, s.closed) && Enabled(s, e)
    requires Accounted(s.counter, s.past.counted, s.cfg.counterCapacity)
    ensures var s' := Apply(s, e); Accounted(s'.counter, s'.past.counted, s'.cfg.counterCapacity)
  {
    hide StepOf, AgentStep, RoutineStep, Accounted, ActEnabled, AgentEnabled, RoutineEnabled, CountIf;
    match e {
      case Step(i, act) =>
        ActorIsLive(s, i, act);
        LiveMeansBusy(s, i);
        StepKeepsCounter(s, i, act);
      case RoutineDoes(r, tick) =>
        RoutineKeepsCounter(s, r, tick);
      case AgentDoes(move) =>
        AgentKeepsCounter(s, move);
      case _ =>
    }
  }
}
