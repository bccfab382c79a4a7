/** The pool's workers at the semaphore's door and at the top of their loop. */
module PipelineDoor {
  import opened Results
  import opened Semaphores
  import opened Workers
  import opened Pipeline
  import opened PipelineLife
  import opened PipelineTheorems

  /** Worker `i` alone has moved, from `pc` on, and the semaphore is now `sema`. */
  predicate AtDoor(s: State, s': State, i: nat, pc: Pc, sema: Sema) {
    && i < |s.workers|
    && s' == s.(workers := s.workers[i := s.workers[i].(pc := pc)], pool := s.pool.(sema := sema))
  }

  /** A worker that nobody disturbs acquires as the semaphore alone does: refused at once while a resize blocks, given
      up when the timer wins or the channel is full, and with a token more in the current channel otherwise. Blocked or
      not is decided by the flag alone. */
  lemma AcquiresAlone(s: State, i: nat, timerWins: bool) returns (s': State, es: seq<Event>)
    requires i < |s.workers| && s.workers[i].pc.Entering? && s.pool.sema.chans != []
    ensures Run(s, es) == Some(s')
    ensures var (job, sema) := (s.workers[i].pc.job, s.pool.sema);
            if sema.blockAcquire || timerWins || sema.Current().tokens >= sema.Current().capacity
            then AtDoor(s, s', i, Dropping(job), sema)
            else AtDoor(s, s', i, Counting(job), Sent(sema, |sema.chans| - 1))
    ensures Enabled(s, Step(i, Deny)) <==> s.pool.sema.blockAcquire
    ensures Enabled(s, Step(i, Admit)) <==> !s.pool.sema.blockAcquire
  {
    hide AgentAfter, ClosedAfter, PastAfter, Done, CanAnswer;
    if s.pool.sema.blockAcquire {
      s' := Apply(s, Step(i, Deny));
      es := [Step(i, Deny)];
      RunOne(s, Step(i, Deny));
      DoorStep(s, i, Deny);
    } else {
      var chan := s.pool.sema.Current();
      var last := if timerWins || chan.tokens >= chan.capacity then TimeOut else Acquire;
      DoorStep(s, i, Admit);
      var s1 := Apply(s, Step(i, Admit));
      DoorStep(s1, i, Choose);
      var s2 := Apply(s1, Step(i, Choose));
      DoorStep(s2, i, last);
      s' := Apply(s2, Step(i, last));
      es := [Step(i, Admit), Step(i, Choose), Step(i, last)];
      RunThree(s, Step(i, Admit), Step(i, Choose), Step(i, last));
    }
  }

  /** The actions at the door touch nothing but the worker and the semaphore. */
  lemma DoorStep(s: State, i: nat, act: Act)
    requires Enabled(s, Step(i, act)) && (act.Deny? || act.Admit? || act.Choose? || act.TimeOut? || act.Acquire?)
    ensures var w := s.workers[i];
            AtDoor(s, Apply(s, Step(i, act)), i, NextPc(s, w, act),
                   if act.Acquire? then Sent(s.pool.sema, w.pc.chan) else s.pool.sema)
  {
    hide CanSend, Sent, Done, CanAnswer;
  }

  lemma RunOne(s: State, e: Event)
    requires Enabled(s, e)
    ensures Run(s, [e]) == Some(Apply(s, e))
  {
    hide Enabled, Apply;
    assert [e][1..] == [];
  }

  lemma RunThree(s: State, e: Event, f: Event, g: Event)
    requires Enabled(s, e) && Enabled(Apply(s, e), f) && Enabled(Apply(Apply(s, e), f), g)
    ensures Run(s, [e, f, g]) == Some(Apply(Apply(Apply(s, e), f), g))
  {
    hide Enabled, Apply;
    RunOne(Apply(Apply(s, e), f), g);
    assert [e, f, g][1..] == [f, g] && [f, g][1..] == [g];
  }

  /** The block check never refuses anyone: while it blocks, no worker is alive to be refused. */
  lemma NeverRefusedAtTheDoor(cfg: Config, s: State, i: nat)
    requires Reachable(cfg, s)
    ensures !Enabled(s, Step(i, Deny))
  {
    ReachableInv(cfg, s);
    if i < |s.workers| && s.pool.sema.blockAcquire {
      TokensAreHolders(s);
      QuietMeansGone(s);
    }
  }

  /** A worker at the top of its loop can take a job exactly while the job channel is open, and leave exactly when its
      context is done or that channel is closed. */
  lemma AtTheTop(s: State, i: nat, job: string)
    requires i < |s.workers| && s.workers[i].pc.Selecting?
    ensures Enabled(s, Step(i, Take(job))) <==> !s.jobsClosed
    ensures (exists act :: Enabled(s, Step(i, act)) && StepOf(s, i, act).workers[i].pc.Leaving?)
       <==> s.done || s.workers[i].gen in s.pool.cancelled || s.jobsClosed
    ensures forall act :: Enabled(s, Step(i, act)) && !act.Take? ==> StepOf(s, i, act).workers[i].pc.Leaving?
  {
    hide PoolAfter, AgentAfter, ClosedAfter, PastAfter, CanAnswer, CanSend, CanReceive;
    if s.done || s.workers[i].gen in s.pool.cancelled {
      assert Enabled(s, Step(i, SeeDone)) && StepOf(s, i, SeeDone).workers[i].pc.Leaving?;
    }
    if s.jobsClosed {
      assert Enabled(s, Step(i, SeeClosed)) && StepOf(s, i, SeeClosed).workers[i].pc.Leaving?;
    }
  }

  /** The client may answer a call as it likes, but for one begun under a done context: that fails, or meets a 429. */
  lemma AnswersAreOpen(s: State, i: nat, answer: Answer)
    requires i < |s.workers| && s.workers[i].pc.InCall?
    ensures Enabled(s, Step(i, Act.Answer(answer))) <==> !s.workers[i].late || !(answer.Data? || answer.NoContent?)
  {
  }

  lemma JobsStayClosed(s: State, e: Event)
    requires s.jobsClosed && Enabled(s, e)
    ensures Apply(s, e).jobsClosed && Apply(s, e).past.taken == s.past.taken
  {
    hide RoutineStep, RoutineEnabled, NextWorker, PoolAfter, AgentAfter, ClosedAfter, CanResize, Resized, CanAnswer,
      CanSend, CanReceive, Done;
  }

  /** Once the job channel is closed, no run takes another job from it. */
  lemma {:induction false} NothingTakenAfterClose(s: State, es: seq<Event>)
    requires s.jobsClosed && Run(s, es).Some?
    ensures Run(s, es).value.jobsClosed && Run(s, es).value.past.taken == s.past.taken
    decreases |es|
  {
    hide Enabled, Apply;
    if es != [] {
      JobsStayClosed(s, es[0]);
      NothingTakenAfterClose(Apply(s, es[0]), es[1..]);
    }
  }

  /** The watcher closes the job channel only after the agent has closed the results, and closed it then is. */
  lemma ClosesJobs(s: State)
    ensures Enabled(s, CloseJobs) <==> s.closed.results
    ensures s.closed.results ==> Apply(s, CloseJobs).jobsClosed && Apply(s, CloseJobs).past == s.past
  {
  }
}
