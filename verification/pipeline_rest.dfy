/** The request watcher comes to rest whenever it is told to. */
module PipelineRest {
  import opened Pipeline
  import opened PipelineLimits
  import opened PipelineTheorems
  import opened PipelineDrive

  /** The goroutines have been told to stop: the last stop channel is closed, or the request channel is. */
  predicate ToldToStop(s: State) {
    var w := s.counter.watcher;
    w.stops != [] && (w.stops[|w.stops| - 1] || s.closed.requests)
  }

  /** Only what the goroutines do has happened: `s'` is `s` up to the counter. */
  ghost predicate Since(s: State, s': State) {
    && s' == s.(counter := s'.counter)
    && s'.counter.watcher.stops == s.counter.watcher.stops
    && |s'.counter.watcher.routines| == |s.counter.watcher.routines|
    && s'.counter.countedThen == s.counter.countedThen && s'.counter.sole == s.counter.sole
  }

  /** What a goroutine that is still there does next: write back, exit, or else take one more request. */
  function Onward(s: State, r: nat): RoutineAct
    requires r < |s.counter.watcher.routines|
  {
    if s.counter.watcher.routines[r].Storing? then Store
    else if RoutineEnabled(s.counter, s.closed.requests, r, Exit) then Exit
    else Receive
  }

  lemma OnwardIsOpen(s: State, r: nat)
    requires Stops(s) && ToldToStop(s) && r < |s.counter.watcher.routines|
    requires !s.counter.watcher.routines[r].Exited?
    ensures Enabled(s, RoutineDoes(r, Onward(s, r)))
    ensures var s' := Apply(s, RoutineDoes(r, Onward(s, r)));
            && Since(s, s')
            && (forall k :: 0 <= k < |s.counter.watcher.routines| && k != r ==>
                  s'.counter.watcher.routines[k] == s.counter.watcher.routines[k])
            && (s'.counter.watcher.routines[r].Exited? ||
                Left(s'.counter, r) < Left(s.counter, r))
  {
  }

  /** How much a goroutine can still do: the requests in the buffer, and the one it has in hand. */
  function Left(c: Counter, r: nat): nat
    requires r < |c.watcher.routines|
  {
    2 * c.buffered + if c.watcher.routines[r].Storing? then 1 else 0
  }

  /** A goroutine that is told to stop can exit, with the others where they are. */
  lemma {:induction false} OneExits(s: State, r: nat) returns (s': State)
    requires Inv(s) && ToldToStop(s) && r < |s.counter.watcher.routines|
    ensures Leads(s, s', Idly) && Since(s, s') && s'.counter.watcher.routines[r].Exited?
    ensures forall k :: 0 <= k < |s.counter.watcher.routines| && k != r ==>
              s'.counter.watcher.routines[k] == s.counter.watcher.routines[k]
    decreases Left(s.counter, r)
  {
    hide Leads, Inv, Apply, Enabled;
    LeadsNowhere(s, Idly);
    s' := s;
    if !s.counter.watcher.routines[r].Exited? {
      StopsHold(s);
      OnwardIsOpen(s, r);
      var e := RoutineDoes(r, Onward(s, r));
      LeadsOn(s, s, e, Idly);
      s' := Apply(s, e);
      LeadsKeepsInv(s, s', Idly);
      if !s'.counter.watcher.routines[r].Exited? {
        var s1 := s';
        s' := OneExits(s1, r);
        LeadsFurther(s, s1, s', Idly);
      }
    }
  }

  lemma StopsHold(s: State)
    requires Inv(s)
    ensures Stops(s)
  {
  }

  lemma {:induction false} AllExit(s: State, n: nat) returns (s': State)
    requires Inv(s) && ToldToStop(s) && n <= |s.counter.watcher.routines|
    requires forall r :: 0 <= r < n ==> s.counter.watcher.routines[r].Exited?
    ensures Leads(s, s', Idly) && Since(s, s') && AllExited(s'.counter.watcher)
    decreases |s.counter.watcher.routines| - n
  {
    hide Leads, Inv;
    if n == |s.counter.watcher.routines| {
      s' := s;
      LeadsNowhere(s, Idly);
    } else {
      var s1 := OneExits(s, n);
      LeadsKeepsInv(s, s1, Idly);
      s' := AllExit(s1, n + 1);
      LeadsFurther(s, s1, s', Idly);
    }
  }

  /** In every reachable state, all stop channels but the last are closed; and the last one is, from the stop at a pause
      to the next start. */
  lemma StoppedAtPause(cfg: Config, s: State)
    requires Reachable(cfg, s)
    ensures var stops := s.counter.watcher.stops;
            && stops != [] && (forall k :: 0 <= k < |stops| - 1 ==> stops[k])
            && (s.agent.timerArmed || s.agent.phase.Restarting? ==> stops[|stops| - 1])
  {
    hide Inv;
    ReachableInv(cfg, s);
    StopsHold(s);
  }

  /** So at every pause, and once the agent has closed the request channel, some run of the watcher's goroutines alone
      brings all of them to their end. If it is not at a pause, the request channel is then empty. And if no two of them
      have run together, the count is then within the channel's capacity of the requests sent since the start. */
  lemma ComesToRest(cfg: Config, s: State) returns (s': State)
    requires Reachable(cfg, s) && (s.agent.timerArmed || s.agent.phase.Restarting? || s.closed.requests)
    ensures Leads(s, s', Idly) && Since(s, s') && AllExited(s'.counter.watcher)
    ensures var stops := s.counter.watcher.stops;
            stops != [] && (!stops[|stops| - 1] ==> s'.counter.buffered == 0)
    ensures s.counter.sole ==>
              var since := s.past.counted - s.counter.countedThen;
              since - cfg.counterCapacity <= s'.counter.watcher.count <= since + cfg.counterCapacity
  {
    hide Leads, Inv;
    ReachableInv(cfg, s);
    ReachableConfigured(cfg, s);
    StopsHold(s);
    s' := AllExit(s, 0);
    LeadsKeepsInv(s, s', Idly);
    StopsHold(s');
    if s.counter.sole {
      CountIsClose(s');
    }
  }

  lemma CountIsClose(s: State)
    requires Inv(s) && s.counter.sole && AllExited(s.counter.watcher)
    ensures var since := s.past.counted - s.counter.countedThen;
            since - s.cfg.counterCapacity <= s.counter.watcher.count <= since + s.cfg.counterCapacity
  {
  }

  /** Unless it is told to stop, the last goroutine never exits. */
  lemma NeverAlone(cfg: Config, s: State)
    requires Reachable(cfg, s) && Watched(s.agent)
    ensures var w := s.counter.watcher;
            && w.routines != [] && !w.routines[|w.routines| - 1].Exited?
            && !Enabled(s, RoutineDoes(|w.routines| - 1, Exit))
  {
    ReachableInv(cfg, s);
  }
}
