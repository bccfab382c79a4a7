/** Driving the pipeline: runs that take a worker through a call, or every worker to its end. */
module PipelineDrive {
  import opened Results
  import opened Semaphores
  import opened Workers
  import opened Pipeline
  import opened PipelineLife
  import opened PipelineJobs
  import opened PipelineRates
  import opened PipelineLimits
  import opened PipelineTheorems

  // ---------------------------------------------------------------- leading from state to state

  /** What a run is kept to: nothing, no new jobs and no data from the client, no hand-over with the watcher at all, or
      the goroutines of the request watcher alone. */
  datatype Mode = Anyhow | Tamely | Silently | Idly

  predicate Allows(mode: Mode, e: Event) {
    match mode
    case Anyhow => true
    case Tamely => e.Step? ==> !e.act.Take? && !(e.act.Answer? && e.act.answer.Data?)
    case Silently => e.Step? ==> !HandOver(e.act)
    case Idly => e.RoutineDoes?
  }

  ghost predicate Drives(es: seq<Event>, s: State, s': State, mode: Mode) {
    Run(s, es) == Some(s') && forall i :: 0 <= i < |es| ==> Allows(mode, es[i])
  }

  /** Some run of the mode leads from `s` to `s'`. */
  ghost predicate Leads(s: State, s': State, mode: Mode) {
    exists es :: Drives(es, s, s', mode)
  }

  lemma LeadsNowhere(s: State, mode: Mode)
    ensures Leads(s, s, mode)
  {
    assert Drives([], s, s, mode);
  }

  lemma {:induction false} RunBoth(s: State, es: seq<Event>, fs: seq<Event>)
    requires Run(s, es).Some?
    ensures Run(s, es + fs) == Run(Run(s, es).value, fs)
    decreases |es|
  {
    hide Enabled, Apply;
    if es == [] {
      assert es + fs == fs;
    } else {
      assert (es + fs)[1..] == es[1..] + fs;
      RunBoth(Apply(s, es[0]), es[1..], fs);
    }
  }

  lemma LeadsFurther(s: State, s': State, s'': State, mode: Mode)
    requires Leads(s, s', mode) && Leads(s', s'', mode)
    ensures Leads(s, s'', mode)
  {
    hide Run, Allows;
    var es :| Drives(es, s, s', mode);
    var fs :| Drives(fs, s', s'', mode);
    RunBoth(s, es, fs);
    assert Drives(es + fs, s, s'', mode);
  }

  lemma LeadsBy(s: State, e: Event, mode: Mode)
    requires Enabled(s, e) && Allows(mode, e)
    ensures Leads(s, Apply(s, e), mode)
  {
    hide Enabled, Apply, Allows;
    assert [e][1..] == [] && Run(s, [e]) == Some(Apply(s, e));
    assert Drives([e], s, Apply(s, e), mode);
  }

  lemma LeadsOn(s: State, s': State, e: Event, mode: Mode)
    requires Leads(s, s', mode) && Enabled(s', e) && Allows(mode, e)
    ensures Leads(s, Apply(s', e), mode)
  {
    hide Enabled, Apply, Allows, Leads;
    LeadsBy(s', e, mode);
    LeadsFurther(s, s', Apply(s', e), mode);
  }

  lemma LeadsLoudly(s: State, s': State, mode: Mode)
    requires Leads(s, s', mode)
    ensures Leads(s, s', Anyhow)
  {
    hide Run;
    var es :| Drives(es, s, s', mode);
    assert Drives(es, s, s', Anyhow);
  }

  lemma LeadsKeepsInv(s: State, s': State, mode: Mode)
    requires Inv(s) && Leads(s, s', mode)
    ensures Inv(s')
  {
    hide Inv, Run;
    var es :| Drives(es, s, s', mode);
    RunKeeps(s, es);
  }

  // ---------------------------------------------------------------- room to count a request

  /** The watcher's goroutine makes room in the request channel. */
  lemma MakeRoom(s: State, mode: Mode) returns (s': State)
    requires Inv(s) && Watched(s.agent) && s.cfg.counterCapacity > 0
    ensures Leads(s, s', mode) && Inv(s') && s' == s.(counter := s'.counter)
    ensures s'.counter.buffered < s.cfg.counterCapacity
  {
    hide Leads, Inv;
    s' := s;
    LeadsNowhere(s, mode);
    SomebodyListens(s);
    if s.counter.buffered == s.cfg.counterCapacity {
      var r := |s.counter.watcher.routines| - 1;
      if s'.counter.watcher.routines[r].Storing? {
        LeadsOn(s, s', RoutineDoes(r, Store), mode);
        s' := Apply(s', RoutineDoes(r, Store));
      }
      LeadsOn(s, s', RoutineDoes(r, Receive), mode);
      s' := Apply(s', RoutineDoes(r, Receive));
    }
    LeadsKeepsInv(s, s', mode);
  }

  lemma SomebodyListens(s: State)
    requires Inv(s) && Watched(s.agent)
    ensures Listens(s.counter.watcher) && s.counter.buffered <= s.cfg.counterCapacity
  {
  }

  lemma WatchedIsOpen(s: State)
    requires Inv(s) && Watched(s.agent)
    ensures !s.closed.requests && !s.closed.rate && !s.closed.results
  {
  }

  // ---------------------------------------------------------------- one call

  /** `s'` is `s` with worker `i` at `pc`, up to tokens, the request counter and the history. */
  ghost predicate Moved(s: State, s': State, i: nat, pc: Pc) {
    && i < |s.workers| && s'.workers == s.workers[i := s.workers[i].(pc := pc)]
    && s'.cfg == s.cfg && s'.done == s.done && s'.jobsClosed == s.jobsClosed && s'.agent == s.agent
      && s'.closed == s.closed
    && s'.pool == s.pool.(sema := s'.pool.sema) && |s'.pool.sema.chans| == |s.pool.sema.chans|
    && s'.pool.sema.blockAcquire == s.pool.sema.blockAcquire
    && s'.past == s.past.(counted := s'.past.counted, calls := s'.past.calls, releases := s'.past.releases)
  }

  /** A worker at work, with nothing in the way of its calls. */
  ghost predicate Working(s: State, i: nat) {
    && i < |s.workers| && !s.workers[i].late && !Done(s, s.workers[i].gen)
    && Watched(s.agent) && !s.pool.sema.blockAcquire && s.cfg.counterCapacity > 0
  }

  /** The actions on the way through a call, up to the answer. */
  predicate IsForward(act: Act) {
    act.Admit? || act.Choose? || act.Acquire? || act.Count? || act.BeginCall? || act.Answer?
  }

  lemma Forward(s: State, i: nat, act: Act) returns (s': State)
    requires i < |s.workers| && ActEnabled(s, s.workers[i], act) && IsForward(act)
    requires act.Count? ==> !s.closed.requests
    requires act.BeginCall? ==> !Done(s, s.workers[i].gen)
    ensures Leads(s, s', Silently) && Moved(s, s', i, NextPc(s, s.workers[i], act))
      && s'.past.releases == s.past.releases
    ensures act.Admit? || act.Choose? || act.Acquire? ==> s'.past == s.past
    ensures !act.Acquire? ==> s'.pool == s.pool
  {
    hide Leads, Done, CanAnswer, NextPc;
    ApplyStep(s, i, act);
    LeadsNowhere(s, Silently);
    LeadsOn(s, s, Step(i, act), Silently);
    s' := StepOf(s, i, act);
  }

  lemma MovedTwice(s: State, s': State, s'': State, i: nat, pc: Pc, pc': Pc)
    requires Moved(s, s', i, pc) && Moved(s', s'', i, pc')
    ensures Moved(s, s'', i, pc')
  {
    assert s''.workers == s.workers[i := s.workers[i].(pc := pc')];
  }

  lemma HasChannel(s: State)
    requires Inv(s)
    ensures s.pool.sema.chans != []
  {
  }

  /** A worker that has a job gets a token if one is free. */
  lemma GetsToken(s: State, i: nat, job: string) returns (s': State)
    requires Inv(s) && Working(s, i) && s.workers[i].pc == Entering(job)
    requires s.pool.sema.Current().tokens < s.pool.sema.Current().capacity
    ensures Leads(s, s', Silently) && Moved(s, s', i, Counting(job))
    ensures s'.past == s.past
  {
    hide Leads, Inv, Done, Watched;
    HasChannel(s);
    var last := |s.pool.sema.chans| - 1;
    var s1 := Forward(s, i, Admit);
    var s2 := Forward(s1, i, Choose);
    LeadsFurther(s, s1, s2, Silently);
    MovedTwice(s, s1, s2, i, Admitted(job), Waiting(job, last));
    s' := Forward(s2, i, Acquire);
    LeadsFurther(s, s2, s', Silently);
    MovedTwice(s, s2, s', i, Waiting(job, last), Counting(job));
  }

  /** A worker at work is at work wherever it has moved to. */
  lemma MovedWorks(s: State, s': State, i: nat, pc: Pc)
    requires Working(s, i) && Moved(s, s', i, pc)
    ensures Working(s', i)
  {
  }

  lemma Counts(s: State, i: nat, job: string) returns (s': State)
    requires Inv(s) && Working(s, i) && s.workers[i].pc == Counting(job)
    ensures Leads(s, s', Silently) && Moved(s, s', i, Calling(job))
    ensures s'.past.releases == s.past.releases && s'.pool == s.pool
  {
    hide Leads, Inv, Done, Watched;
    WatchedIsOpen(s);
    var s0 := MakeRoom(s, Silently);
    assert Moved(s, s0, i, Counting(job)) by { assert s.workers == s.workers[i := s.workers[i]]; }
    s' := Forward(s0, i, Count);
    LeadsFurther(s, s0, s', Silently);
    MovedTwice(s, s0, s', i, Counting(job), Calling(job));
  }

  /** A worker that has a token counts its request and makes its call, which may be answered in any way. */
  lemma GetsAnswer(s: State, i: nat, job: string, a: Answer) returns (s': State)
    requires Inv(s) && Working(s, i) && s.workers[i].pc == Counting(job)
    ensures Leads(s, s', Silently) && Moved(s, s', i, Releasing(job, a))
    ensures s'.past.releases == s.past.releases && s'.pool == s.pool
  {
    hide Leads, Inv, Done, Watched;
    var s1 := Counts(s, i, job);
    MovedWorks(s, s1, i, Calling(job));
    var s2 := Forward(s1, i, BeginCall);
    LeadsFurther(s, s1, s2, Silently);
    MovedTwice(s, s1, s2, i, Calling(job), InCall(job));
    s' := Forward(s2, i, Answer(a));
    LeadsFurther(s, s2, s', Silently);
    MovedTwice(s, s2, s', i, InCall(job), Releasing(job, a));
  }

  /** A worker that has its answer gives its token back. */
  lemma GivesBack(s: State, i: nat) returns (s': State)
    requires Inv(s) && i < |s.workers| && s.workers[i].pc.Releasing?
    ensures Leads(s, s', Silently) && Moved(s, s', i, Reporting(s.workers[i].pc.job, s.workers[i].pc.answer))
    ensures s'.past == s.past.(releases := s.past.releases + 1)
  {
    hide Leads, Life, Closings, Conserved, Requests, Accounted, Guarded, Staged, Announcements, CutOff, LastWords,
      Limits, Attended;
    CountPositive(s.workers, i, IsHolding);
    LeadsNowhere(s, Silently);
    LeadsOn(s, s, Step(i, Release), Silently);
    s' := Apply(s, Step(i, Release));
  }

  /** The whole call, from the job in hand to the result about to be sent. */
  lemma CallThrough(s: State, i: nat, job: string, a: Answer) returns (s': State)
    requires Inv(s) && Working(s, i) && s.workers[i].pc == Entering(job)
    requires s.pool.sema.Current().tokens < s.pool.sema.Current().capacity
    ensures Leads(s, s', Silently) && Inv(s') && Moved(s, s', i, Reporting(job, a))
    ensures s'.past.releases == s.past.releases + 1
  {
    hide Leads, Inv, Done;
    var s1 := GetsToken(s, i, job);
    LeadsKeepsInv(s, s1, Silently);
    MovedWorks(s, s1, i, Counting(job));
    var s2 := GetsAnswer(s1, i, job, a);
    LeadsFurther(s, s1, s2, Silently);
    LeadsKeepsInv(s, s2, Silently);
    s' := GivesBack(s2, i);
    LeadsFurther(s, s2, s', Silently);
    LeadsKeepsInv(s, s', Silently);
    assert s'.workers == s.workers[i := s.workers[i].(pc := Reporting(job, a))];
  }

  // ---------------------------------------------------------------- giving up

  /** Steps a worker needs at most to finish under a done context. */
  function Rank(pc: Pc): nat {
    match pc
    case Gone => 0
    case Leaving => 1
    case Selecting => 2
    case Checking(_) => 2
    case Dropping(_) => 3
    case Reporting(_, _) => 3
    case Waiting(_, _) => 4
    case Releasing(_, _) => 4
    case Admitted(_) => 5
    case InCall(_) => 5
    case Entering(_) => 6
    case Calling(_) => 6
    case Counting(_) => 7
    case _ => 8
  }

  /** A way to the end: give up on tokens, let calls fail. */
  function WayOut(pc: Pc): Act {
    match pc
    case Selecting => SeeDone
    case Entering(_) => Admit
    case Admitted(_) => Choose
    case Waiting(_, _) => TimeOut
    case Dropping(_) => SendRefused
    case Counting(_) => Count
    case Calling(_) => BeginCall
    case InCall(_) => Answer(Failed)
    case Releasing(_, _) => Release
    case Reporting(_, _) => SendResult
    case Checking(_) => Check
    case _ => Finish
  }

  /** `s'` is `s` with worker `i` further on, nothing handed over. */
  ghost predicate Worked(s: State, s': State, i: nat) {
    && i < |s.workers| == |s'.workers| && s'.workers == s.workers[i := s'.workers[i]]
    && s'.cfg == s.cfg && s'.done == s.done && s'.jobsClosed == s.jobsClosed && s'.past.sent == s.past.sent
      && s'.past.taken == s.past.taken
  }

  lemma LiveIsNotIdle(s: State, i: nat)
    requires Inv(s) && i < |s.workers| && !s.workers[i].pc.Gone?
    ensures !s.agent.phase.AwaitingIdle?
  {
    LiveMeansBusy(s, i);
  }

  lemma WayOutWithJob(s: State, i: nat)
    requires Inv(s) && i < |s.workers| && InHand(s.workers[i].pc).Some?
    requires s.workers[i].pc.Counting? ==> s.counter.buffered < s.cfg.counterCapacity
    ensures ActEnabled(s, s.workers[i], WayOut(s.workers[i].pc))
  {
    hide Inv, Done, CountIf, CanSend, CanReceive;
    TokensAreHolders(s);
    LiveIsNotIdle(s, i);
    if s.workers[i].pc.Releasing? {
      HolderFindsToken(s, i);
    }
  }

  /** An answer a worker has already got, if any. */
  function AnswerOf(pc: Pc): Option<Answer> {
    match pc
    case Releasing(_, a) => Some(a)
    case Reporting(_, a) => Some(a)
    case _ => None
  }

  /** A worker that has a job and no token yet. */
  predicate BeforeToken(pc: Pc) {
    pc.Entering? || pc.Admitted? || pc.Waiting? || pc.Dropping?
  }

  lemma WayOutKeepsJob(s: State, i: nat)
    requires i < |s.workers| && ActEnabled(s, s.workers[i], WayOut(s.workers[i].pc)) && InHand(s.workers[i].pc).Some?
    requires !s.workers[i].pc.Dropping? && !s.workers[i].pc.Reporting?
    ensures var (act, w) := (WayOut(s.workers[i].pc), s.workers[i]);
            var pc' := NextPc(s, w, act);
            && !HandOver(act) && Worked(s, StepOf(s, i, act), i) && StepOf(s, i, act).workers[i].pc == pc'
            && Rank(pc') < Rank(w.pc) && InHand(pc') == InHand(w.pc) && (BeforeToken(w.pc) ==> BeforeToken(pc'))
            && AnswerOf(pc') == (if pc'.Releasing? && w.pc.InCall? then Some(Failed) else AnswerOf(w.pc))
  {
    hide Done, CanAnswer, CanSend, CanReceive, ClosedAfter, PoolAfter;
  }

  /** A worker with a job can be brought to report it: with the answer it has, or as refused or failed. */
  lemma {:induction false} ToReport(s: State, i: nat) returns (s': State)
    requires Inv(s) && s.cfg.counterCapacity > 0 && i < |s.workers| && InHand(s.workers[i].pc).Some?
    ensures Leads(s, s', Silently) && Inv(s') && Worked(s, s', i)
    ensures s'.workers[i].pc.Dropping? || s'.workers[i].pc.Reporting?
    ensures BeforeToken(s.workers[i].pc) ==> s'.workers[i].pc.Dropping?
    ensures InHand(s'.workers[i].pc) == InHand(s.workers[i].pc)
    ensures var a := AnswerOf(s.workers[i].pc);
            if a.Some? then AnswerOf(s'.workers[i].pc) == a
            else s'.workers[i].pc.Reporting? ==> AnswerOf(s'.workers[i].pc) == Some(Failed)
    decreases Rank(s.workers[i].pc)
  {
    hide Leads, Inv, Rank, WayOut, StepOf, ActEnabled, NextWorker;
    LeadsNowhere(s, Silently);
    if s.workers[i].pc.Dropping? || s.workers[i].pc.Reporting? {
      s' := s;
    } else {
      var s0 := s;
      if s.workers[i].pc.Counting? {
        HoldingIsWatched(s, i);
        s0 := MakeRoom(s, Silently);
      }
      var act := WayOut(s0.workers[i].pc);
      WayOutWithJob(s0, i);
      WayOutKeepsJob(s0, i);
      ApplyStep(s0, i, act);
      LeadsOn(s, s0, Step(i, act), Silently);
      var s1 := Apply(s0, Step(i, act));
      LeadsKeepsInv(s, s1, Silently);
      s' := ToReport(s1, i);
      LeadsFurther(s, s1, s', Silently);
    }
  }

  lemma HoldingIsWatched(s: State, i: nat)
    requires Inv(s) && i < |s.workers| && !s.workers[i].pc.Gone?
    ensures Watched(s.agent)
  {
    LiveMeansBusy(s, i);
  }
}
