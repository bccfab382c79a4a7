/** What holds in every reachable state of the pipeline, and over whole runs of it. */
module PipelineTheorems {
  import opened GoInt
  import opened Results
  import opened Semaphores
  import opened Workers
  import opened Pipeline
  import opened PipelineLife
  import opened PipelineJobs
  import opened PipelineRates
  import opened PipelineLimits
  import opened PipelineCrew

  ghost predicate Inv(s: State) {
    && Life(s) && Closings(s.agent, s.closed) && Tokens(s)
    && Conserved(s) && Requests(s) && Accounted(s.counter, s.past.counted, s.cfg.counterCapacity)
    && Guarded(s) && Staged(s) && Announcements(s) && CutOff(s) && LastWords(s)
    && Limits(s) && Attended(s) && Stops(s) && Halts(s) && Crew(s)
  }

  lemma InitInv(cfg: Config)
    ensures Inv(Init(cfg))
  {
    assert Jobs([]) == [];
  }

  lemma EventKeeps(s: State, e: Event)
    requires Inv(s) && Enabled(s, e)
    ensures Inv(Apply(s, e))
  {
    hide Enabled, Apply, Life, Closings, Tokens, Conserved, Requests, Accounted, Guarded, Staged, Announcements, CutOff,
      LastWords, Limits, Attended, Stops, Halts, Crew;
    EventKeepsLife(s, e);
    EventKeepsTokens(s, e);
    EventKeepsJobs(s, e);
    EventKeepsRequests(s, e);
    EventKeepsCounter(s, e);
    EventKeepsGuard(s, e);
    EventKeepsAnnouncements(s, e);
    EventKeepsCutOff(s, e);
    EventKeepsWords(s, e);
    KeepsLimits(s, e);
  }

  lemma KeepsLimits(s: State, e: Event)
    requires Inv(s) && Enabled(s, e)
    ensures Limits(Apply(s, e)) && Attended(Apply(s, e)) && Stops(Apply(s, e))
    ensures Halts(Apply(s, e)) && Crew(Apply(s, e))
  {
    hide Enabled, Apply, Life, Closings, Tokens, Conserved, Requests, Accounted, Guarded, Staged, Marks, Ways, CutOff,
      LastWords, Limits, Attended, Stops, Halts, Crew;
    EventKeepsLimits(s, e);
    EventKeepsAttended(s, e);
    EventKeepsStops(s, e);
    EventKeepsHalts(s, e);
    EventKeepsCrew(s, e);
  }

  lemma {:induction false} RunKeeps(s: State, es: seq<Event>)
    requires Inv(s) && Run(s, es).Some?
    ensures Inv(Run(s, es).value)
    decreases |es|
  {
    hide Inv, Enabled, Apply;
    if es != [] {
      EventKeeps(s, es[0]);
      RunKeeps(Apply(s, es[0]), es[1..]);
    }
  }

  lemma ReachableInv(cfg: Config, s: State)
    requires Reachable(cfg, s)
    ensures Inv(s)
  {
    hide Inv, Run;
    var es :| Run(Init(cfg), es) == Some(s);
    InitInv(cfg);
    RunKeeps(Init(cfg), es);
  }

  lemma {:induction false} RunConfigured(cfg: Config, s: State, es: seq<Event>)
    requires s.cfg == cfg && Run(s, es).Some?
    ensures Run(s, es).value.cfg == cfg
    decreases |es|
  {
    if es != [] {
      EventConfigured(cfg, s, es[0]);
      hide Enabled, Apply;
      RunConfigured(cfg, Apply(s, es[0]), es[1..]);
    }
  }

  lemma EventConfigured(cfg: Config, s: State, e: Event)
    requires s.cfg == cfg && Enabled(s, e)
    ensures Apply(s, e).cfg == cfg
  {
    hide RoutineStep, RestartCounter, NextWorker, PoolAfter, AgentAfter, PastAfter, ClosedAfter, ActEnabled, CanResize;
  }

  lemma ReachableConfigured(cfg: Config, s: State)
    requires Reachable(cfg, s)
    ensures s.cfg == cfg
  {
    hide Run;
    var es :| Run(Init(cfg), es) == Some(s);
    RunConfigured(cfg, Init(cfg), es);
  }

  // ---------------------------------------------------------------- tokens, jobs, shutdown

  /** A worker that holds a token finds one to give back. */
  lemma HolderFindsToken(s: State, i: nat)
    requires Inv(s) && i < |s.workers| && Has(s.workers[i], IsHolding)
    ensures CanReceive(s.pool.sema)
  {
    CountPositive(s.workers, i, IsHolding);
  }

  lemma TokensAreHolders(s: State)
    requires Inv(s)
    ensures s.pool.sema.chans != []
    ensures CountIf(s.workers, IsHolding) == s.pool.sema.Current().tokens <= s.pool.sema.Current().capacity
    ensures forall c :: 0 <= c < |s.pool.sema.chans| - 1 ==> s.pool.sema.chans[c].tokens == 0
    ensures s.pool.gen == 0 ==> s.pool.sema.Current().capacity == s.cfg.maxRequests
    ensures s.agent.phase.AwaitingIdle? ==> CountIf(s.workers, IsHolding) == 0
    ensures s.pool.sema.blockAcquire <==> s.agent.phase.AwaitingIdle?
  {
    if s.agent.phase.AwaitingIdle? {
      QuietMeansGone(s);
      CountNone(s.workers, IsHolding);
    }
  }

  /** Bounded in-flight requests: the workers between acquire and release are exactly the tokens of the current channel,
      so never more than it holds, which is the configured limit until the pool has been restarted; a release always
      finds a token; and a resize only replaces an empty channel. */
  lemma BoundedInFlight(cfg: Config, s: State)
    requires Reachable(cfg, s)
    ensures s.pool.sema.chans != []
    ensures CountIf(s.workers, IsHolding) == s.pool.sema.Current().tokens <= s.pool.sema.Current().capacity
    ensures s.pool.gen == 0 ==> CountIf(s.workers, IsHolding) <= cfg.maxRequests
    ensures forall i :: 0 <= i < |s.workers| && s.workers[i].pc.Releasing? ==> Enabled(s, Step(i, Release))
    ensures Enabled(s, FinishResize) ==> forall c :: 0 <= c < |s.pool.sema.chans| ==> s.pool.sema.chans[c].tokens == 0
  {
    hide Inv, CountIf;
    ReachableInv(cfg, s);
    ReachableConfigured(cfg, s);
    TokensAreHolders(s);
    forall i | 0 <= i < |s.workers| && s.workers[i].pc.Releasing? ensures CanReceive(s.pool.sema) {
      HolderFindsToken(s, i);
    }
  }

  /** Job conservation: the jobs taken are those reported together with those in workers' hands, at most one a worker;
      and once the agent has begun to close its channels, every job taken has exactly one result. */
  lemma JobConservation(cfg: Config, s: State)
    requires Reachable(cfg, s)
    ensures multiset(s.past.taken) == multiset(Jobs(s.past.sent)) + Held(s.workers)
    ensures forall i :: 0 <= i < |s.workers| ==> |JobOf(s.workers[i])| <= 1
    ensures s.agent.phase.Closing? || s.agent.phase.Stopped? ==> multiset(s.past.taken) == multiset(Jobs(s.past.sent))
  {
    ReachableInv(cfg, s);
    if s.agent.phase.Closing? || s.agent.phase.Stopped? {
      QuietMeansGone(s);
      NothingHeld(s.workers);
    }
  }

  /** Safe shutdown: the WaitGroup counts the live workers, nothing has panicked, and no action that a worker or the
      agent can take now would send on a closed channel or close one twice. */
  lemma SafeShutdown(cfg: Config, s: State)
    requires Reachable(cfg, s)
    ensures s.pool.wg == CountIf(s.workers, IsLive)
    ensures !s.closed.panicked
    ensures forall e :: Enabled(s, e) ==> !Apply(s, e).closed.panicked
    ensures s.closed.requests || s.closed.rate || s.closed.results ==>
              forall i :: 0 <= i < |s.workers| ==> s.workers[i].pc.Gone?
  {
    ReachableInv(cfg, s);
    forall e | Enabled(s, e) ensures !Apply(s, e).closed.panicked {
      EventKeeps(s, e);
    }
    if s.closed.requests || s.closed.rate || s.closed.results {
      QuietMeansGone(s);
    }
  }

  // ---------------------------------------------------------------- rate announcements

  /** The agent has got past the wait that follows an announcement. */
  predicate PastTheWait(a: Agent) {
    a.timerArmed || a.phase.Drained? || a.phase.Restarting? || a.phase.Resizing? || a.phase.AwaitingIdle?
  }

  /** Announcements and timer firings alternate, generation by generation. */
  lemma MarksAlternate(cfg: Config, s: State)
    requires Reachable(cfg, s)
    ensures forall k :: 0 <= k < |s.agent.marks| ==>
              if k % 2 == 0 then s.agent.marks[k].Announced? && s.agent.marks[k].gen == k / 2
              else s.agent.marks[k].Fired? && s.agent.marks[k].gen == k / 2
  {
    ReachableInv(cfg, s);
    forall k | 0 <= k < |s.agent.marks|
      ensures if k % 2 == 0 then s.agent.marks[k].Announced? && s.agent.marks[k].gen == k / 2
              else s.agent.marks[k].Fired? && s.agent.marks[k].gen == k / 2
    {
      assert MarkOk(s, k);
    }
  }

  /** A worker announces at most once, after it has reported its own 429 and cancelled its generation, and then only
      leaves. */
  lemma AnnouncersOnce(cfg: Config, s: State)
    requires Reachable(cfg, s)
    ensures forall k :: 0 <= k < |s.agent.marks| && s.agent.marks[k].Announced? ==>
              Announcer(s, s.agent.marks[k].gen, s.agent.marks[k].worker, s.agent.marks[k].rate)
    ensures forall j, k ::
              0 <= j < k < |s.agent.marks| && s.agent.marks[j].Announced? && s.agent.marks[k].Announced? ==>
              s.agent.marks[j].worker != s.agent.marks[k].worker
    ensures forall i :: 0 <= i < |s.workers| && s.workers[i].pc.Announcing? ==>
              s.workers[i].gen in s.pool.cancelled && Reported(s.past.sent, i, s.workers[i].pc.rate)
  {
    ReachableInv(cfg, s);
    forall k | 0 <= k < |s.agent.marks| && s.agent.marks[k].Announced?
      ensures k == 2 * s.agent.marks[k].gen
        && Announcer(s, s.agent.marks[k].gen, s.agent.marks[k].worker, s.agent.marks[k].rate)
    {
      assert MarkOk(s, k);
    }
  }

  /** Past the wait, exactly one announcement was made in the generation, and nobody is left who could make another. */
  lemma OneAnnouncementPerPause(cfg: Config, s: State)
    requires Reachable(cfg, s) && PastTheWait(s.agent)
    ensures |s.agent.marks| > 2 * s.pool.gen
    ensures forall k :: 0 <= k < |s.agent.marks| ==>
              (s.agent.marks[k].Announced? && s.agent.marks[k].gen == s.pool.gen <==> k == 2 * s.pool.gen)
    ensures forall i :: 0 <= i < |s.workers| ==> s.workers[i].pc.Gone?
  {
    ReachableInv(cfg, s);
    QuietMeansGone(s);
    MarksAlternate(cfg, s);
  }

  /** Cut-off after a 429: once a worker has cancelled its generation, the others begin at most `workerCount - 1` more
      calls in it altogether. */
  lemma CutOffAfterCancel(cfg: Config, s: State, gen: nat)
    requires Reachable(cfg, s) && gen in s.pool.cancelled
    ensures LateCalls(s.past.calls, gen) <= cfg.workerCount - 1
  {
    ReachableInv(cfg, s);
    ReachableConfigured(cfg, s);
    var i :| 0 <= i < |s.workers| && Canceller(s.workers[i], gen);
    LateAreFewer(s.workers, gen);
  }

  /** A worker reports nothing after its first 429: its results end with it. */
  lemma NothingAfterA429(cfg: Config, s: State)
    requires Reachable(cfg, s)
    ensures forall q, r :: 0 <= q < r < |s.past.sent| && s.past.sent[q].worker == s.past.sent[r].worker ==>
              !IsTooMany(s.past.sent[q])
  {
    ReachableInv(cfg, s);
  }

  // ---------------------------------------------------------------- the resize guard

  /** The guard as written: the counter is minus the releases modulo 2^64, so a resize ends only at a multiple of 2^64
      releases, and a run with fewer releases than that starts the pool once. */
  lemma ResizeGuard(cfg: Config, s: State)
    requires Reachable(cfg, s)
    ensures (s.pool.sema.activeCount + s.past.releases) % TWO64 == 0
    ensures Enabled(s, FinishResize) <==> s.agent.phase.AwaitingIdle? && s.past.releases % TWO64 == 0
    ensures s.past.releases < TWO64 ==> s.pool.gen == 0
  {
    ReachableInv(cfg, s);
    CountdownZero(s.past.releases);
    CountdownSum(s.past.releases);
  }

  lemma CountdownSum(releases: nat)
    ensures (CountedDown(releases) + releases) % TWO64 == 0
  {
    var q := (0 - releases) / TWO64;
    assert CountedDown(releases) + releases == (0 - q) * TWO64;
  }

  /** `limit` is the announced rate over the measured one, rounded down, or the first limit when nothing was
      measured. */
  predicate IsLimit(cfg: Config, rate: Rate, rpm: nat, limit: nat) {
    if rpm == 0 then limit == cfg.maxRequests else limit * rpm <= rate.rpm < (limit + 1) * rpm
  }

  lemma LimitIsQuotient(cfg: Config, rate: Rate, rpm: nat)
    ensures IsLimit(cfg, rate, rpm, LimitFor(cfg, rate, rpm))
  {
  }

  /** `limit` is what the end of generation `g` called for: a worker of that generation had reported a 429 and announced
      its rate, and then the timer fired. */
  ghost predicate LimitAfter(s: State, g: nat, limit: nat) {
    && Ended(s.agent.marks, g)
    && var (told, fired) := (s.agent.marks[2 * g], s.agent.marks[2 * g + 1]);
       && told.gen == g && fired.gen == g && Reported(s.past.sent, told.worker, told.rate)
       && IsLimit(s.cfg, told.rate, fired.rpm, limit)
  }

  lemma LimitOnRecord(s: State, g: nat)
    requires Marks(s) && Ended(s.agent.marks, g)
    ensures LimitAfter(s, g, CalledFor(s.cfg, s.agent.marks, g))
  {
    hide LimitFor, IsLimit, Reported;
    var k := 2 * g;
    assert MarkOk(s, k) && MarkOk(s, k + 1);
    LimitIsQuotient(s.cfg, s.agent.marks[k].rate, s.agent.marks[k + 1].rpm);
  }

  /** In every reachable state there is one channel for each generation. The first has the configured capacity, every
      later one the limit that the end of the generation before called for; and a change under way is to the limit that
      the end of the current one called for. */
  lemma InstalledLimit(cfg: Config, s: State)
    requires Reachable(cfg, s)
    ensures |s.pool.sema.chans| == s.pool.gen + 1 && s.pool.sema.chans[0].capacity == cfg.maxRequests
    ensures forall g :: 1 <= g <= s.pool.gen ==> LimitAfter(s, g - 1, s.pool.sema.chans[g].capacity)
    ensures Changing(s.agent.phase) ==> LimitAfter(s, s.pool.gen, s.agent.phase.newMax)
  {
    hide LimitFor, LimitAfter;
    ReachableInv(cfg, s);
    ReachableConfigured(cfg, s);
    forall g | 1 <= g <= s.pool.gen ensures LimitAfter(s, g - 1, s.pool.sema.chans[g].capacity) {
      assert s.pool.sema.chans[g].capacity == CalledFor(s.cfg, s.agent.marks, g - 1);
      LimitOnRecord(s, g - 1);
    }
    if Changing(s.agent.phase) {
      LimitOnRecord(s, s.pool.gen);
    }
  }

  // ---------------------------------------------------------------- request accounting

  /** Requests counted are the client calls begun, but for workers just about to begin theirs; and they are the results
      other than the pool's own refusals, but for workers with a call not yet reported. */
  lemma RequestAccounting(cfg: Config, s: State)
    requires Reachable(cfg, s)
    ensures s.past.counted == |s.past.calls| + CountIf(s.workers, IsBeforeCall)
    ensures s.past.counted == AnsweredCount(s.past.sent) + CountIf(s.workers, IsUnreported)
    ensures (forall i :: 0 <= i < |s.workers| ==> !s.workers[i].pc.Calling?) ==> s.past.counted == |s.past.calls|
    ensures (forall i :: 0 <= i < |s.workers| ==> s.workers[i].pc.Selecting? || s.workers[i].pc.Gone?) ==>
              s.past.counted == AnsweredCount(s.past.sent)
  {
    ReachableInv(cfg, s);
    if forall i :: 0 <= i < |s.workers| ==> !s.workers[i].pc.Calling? {
      CountNone(s.workers, IsBeforeCall);
    }
    if forall i :: 0 <= i < |s.workers| ==> s.workers[i].pc.Selecting? || s.workers[i].pc.Gone? {
      CountNone(s.workers, IsUnreported);
    }
  }

  /** When the watcher has stopped, its count differs from the requests counted since it started by at most the
      channel's capacity, if every start found the previous goroutine gone. */
  lemma WatcherCount(cfg: Config, s: State)
    requires Reachable(cfg, s) && s.counter.sole && AllExited(s.counter.watcher)
    ensures var since := s.past.counted - s.counter.countedThen;
            since - cfg.counterCapacity <= s.counter.watcher.count <= since + cfg.counterCapacity
  {
    ReachableInv(cfg, s);
    ReachableConfigured(cfg, s);
  }
}
