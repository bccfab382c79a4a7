/** A worker of the pool against the worker's loop run alone: among any number of others, and in every run, it does what
    the loop does on the jobs it takes. */
module PoolWorkers {
  import opened Results
  import opened Semaphores
  import opened Workers
  import opened Pipeline
  import opened PipelineLife
  import opened PipelineJobs
  import opened PipelineRates
  import opened PipelineTheorems

  /** The jobs that worker `i` takes in the run `es`, in order. */
  function TakenIn(es: seq<Event>, i: nat): seq<string> {
    if es == [] then [] else (if es[0].Step? && es[0].i == i then TakenBy(es[0].act) else []) + TakenIn(es[1..], i)
  }

  /** The requests that worker `i` counts in the run `es`. */
  function CountedIn(es: seq<Event>, i: nat): nat {
    if es == [] then 0 else (if es[0] == Step(i, Count) then 1 else 0) + CountedIn(es[1..], i)
  }

  function TurnOf(r: Report): Turn {
    match r.outcome
    case Refused => Turn(r.job, false, Failed)
    case Answered(a) => Turn(r.job, true, a)
  }

  /** The turns that worker `i` has reported, in order. */
  function TurnsOf(sent: seq<Report>, i: nat): seq<Turn> {
    if sent == [] then []
    else TurnsOf(sent[..|sent| - 1], i) + if sent[|sent| - 1].worker == i then [TurnOf(sent[|sent| - 1])] else []
  }

  function TurnJobs(turns: seq<Turn>): seq<string> {
    seq(|turns|, k requires 0 <= k < |turns| => turns[k].job)
  }

  function PcOf(s: State, i: nat): Pc {
    if i < |s.workers| then s.workers[i].pc else Selecting
  }

  function AsSeq(job: Option<string>): seq<string> {
    if job.Some? then [job.value] else []
  }

  /** The jobs worker `i` has had, in order: those it has reported, and the one in its hands. */
  function Had(s: State, i: nat): seq<string> {
    TurnJobs(TurnsOf(s.past.sent, i)) + AsSeq(InHand(PcOf(s, i)))
  }

  predicate Unreported(pc: Pc) {
    pc.Calling? || pc.InCall? || pc.Releasing? || pc.Reporting?
  }

  /** The requests worker `i` has counted: those of its reported turns, and the one it has under way. */
  function Asked(s: State, i: nat): nat {
    Acquired(TurnsOf(s.past.sent, i)) + if Unreported(PcOf(s, i)) then 1 else 0
  }

  // ---------------------------------------------------------------- one event

  lemma TurnsAppend(sent: seq<Report>, r: Report, i: nat)
    ensures TurnsOf(sent + [r], i) == TurnsOf(sent, i) + if r.worker == i then [TurnOf(r)] else []
  {
    assert (sent + [r])[..|sent|] == sent;
  }

  lemma AcquiredAppend(turns: seq<Turn>, t: Turn)
    ensures Acquired(turns + [t]) == Acquired(turns) + if t.acquired then 1 else 0
  {
    assert (turns + [t])[..|turns|] == turns;
  }

  /** What the actions of a worker do to its jobs and requests. */
  lemma StepOfWorker(s: State, i: nat, act: Act)
    requires Enabled(s, Step(i, act))
    ensures Had(StepOf(s, i, act), i) == Had(s, i) + TakenBy(act)
    ensures Asked(StepOf(s, i, act), i) == Asked(s, i) + if act.Count? then 1 else 0
  {
    hide Done, CanAnswer, CanSend, CanReceive, TurnsOf, Acquired, PoolAfter, AgentAfter, ClosedAfter, NextPc, InHand;
    var s', w := StepOf(s, i, act), s.workers[i];
    var turns := TurnsOf(s.past.sent, i);
    StepHistory(s, i, act);
    StepHolds(s, i, act);
    StepAsks(s, i, act);
    if act.SendRefused? || act.SendResult? {
      ReportsWhatItHolds(s, i, act);
      var r := SentBy(i, w, act)[0];
      assert SentBy(i, w, act) == [r];
      TurnsAppend(s.past.sent, r, i);
      AcquiredAppend(turns, TurnOf(r));
      assert TurnJobs(turns + [TurnOf(r)]) == TurnJobs(turns) + [r.job];
    } else {
      assert s'.past.sent == s.past.sent;
    }
  }

  lemma StepAsks(s: State, i: nat, act: Act)
    requires Enabled(s, Step(i, act))
    ensures var (pc, pc') := (s.workers[i].pc, NextPc(s, s.workers[i], act));
            if act.Count? then !Unreported(pc) && Unreported(pc')
            else if act.SendResult? then Unreported(pc) && !Unreported(pc')
            else Unreported(pc') == Unreported(pc)
  {
    hide Done, CanAnswer, CanSend, CanReceive;
  }

  lemma ReportsWhatItHolds(s: State, i: nat, act: Act)
    requires Enabled(s, Step(i, act)) && (act.SendRefused? || act.SendResult?)
    ensures |SentBy(i, s.workers[i], act)| == 1
    ensures var r := SentBy(i, s.workers[i], act)[0];
            r.worker == i && InHand(s.workers[i].pc) == Some(r.job) && (r.outcome.Answered? <==> act.SendResult?)
  {
    hide Done, CanAnswer, CanSend, CanReceive;
  }

  lemma StepOfAnother(s: State, i: nat, act: Act, j: nat)
    requires Enabled(s, Step(i, act)) && j != i
    ensures Had(StepOf(s, i, act), j) == Had(s, j) && Asked(StepOf(s, i, act), j) == Asked(s, j)
  {
    hide Done, CanAnswer, CanSend, CanReceive, TurnsOf, Acquired, PoolAfter, AgentAfter, ClosedAfter, NextPc, InHand;
    StepHistory(s, i, act);
    if act.SendRefused? || act.SendResult? {
      ReportsWhatItHolds(s, i, act);
      var r := SentBy(i, s.workers[i], act)[0];
      assert SentBy(i, s.workers[i], act) == [r];
      TurnsAppend(s.past.sent, r, j);
    } else {
      assert StepOf(s, i, act).past.sent == s.past.sent;
    }
    assert TurnsOf(StepOf(s, i, act).past.sent, j) == TurnsOf(s.past.sent, j);
    assert PcOf(StepOf(s, i, act), j) == PcOf(s, j);
  }

  lemma EventOfWorker(s: State, e: Event, i: nat)
    requires Enabled(s, e)
    ensures Had(Apply(s, e), i) == Had(s, i) + if e.Step? && e.i == i then TakenBy(e.act) else []
    ensures Asked(Apply(s, e), i) == Asked(s, i) + if e == Step(i, Count) then 1 else 0
  {
    hide StepOf, AgentStep, RoutineStep, ActEnabled, AgentEnabled, RoutineEnabled, TurnsOf, Acquired, CanResize,
      Resized;
    match e {
      case Step(j, act) =>
        if j == i {
          StepOfWorker(s, i, act);
        } else {
          StepOfAnother(s, j, act, i);
        }
      case AgentDoes(move) =>
        AgentLeavesWorkers(s, move);
      case _ =>
    }
  }

  lemma AgentLeavesWorkers(s: State, move: AgentAct)
    requires AgentEnabled(s, move)
    ensures AgentStep(s, move).workers == s.workers && AgentStep(s, move).past == s.past
  {
    hide CloseOne, LimitFor, RestartCounter;
  }

  // ---------------------------------------------------------------- whole runs

  lemma {:induction false} RunOfWorker(s: State, es: seq<Event>, i: nat)
    requires Run(s, es).Some?
    ensures Had(Run(s, es).value, i) == Had(s, i) + TakenIn(es, i)
    ensures Asked(Run(s, es).value, i) == Asked(s, i) + CountedIn(es, i)
    decreases |es|
  {
    hide Enabled, Apply, Had, Asked, TakenBy;
    if es != [] {
      EventOfWorker(s, es[0], i);
      RunOfWorker(Apply(s, es[0]), es[1..], i);
    }
  }

  lemma {:induction false} QuietTurns(sent: seq<Report>, i: nat)
    requires forall q :: 0 <= q < |sent| && sent[q].worker == i ==> !IsTooMany(sent[q])
    ensures forall k :: 0 <= k < |TurnsOf(sent, i)| ==> !TurnsOf(sent, i)[k].Announces()
  {
    if sent != [] {
      QuietTurns(sent[..|sent| - 1], i);
    }
  }

  /** Only the last turn of a worker may be a 429. */
  lemma {:induction false} QuietBeforeLast(sent: seq<Report>, i: nat)
    requires forall q, r :: 0 <= q < r < |sent| && sent[q].worker == sent[r].worker ==> !IsTooMany(sent[q])
    ensures forall k :: 0 <= k < |TurnsOf(sent, i)| - 1 ==> !TurnsOf(sent, i)[k].Announces()
  {
    if sent != [] {
      var front := sent[..|sent| - 1];
      if sent[|sent| - 1].worker == i {
        QuietTurns(front, i);
      } else {
        QuietBeforeLast(front, i);
      }
    }
  }

  lemma {:induction false} ReportIsTurn(sent: seq<Report>, i: nat, job: string, rate: Rate)
    requires Report(i, job, Answered(TooMany(rate))) in sent
    ensures Turn(job, true, TooMany(rate)) in TurnsOf(sent, i)
  {
    var r := Report(i, job, Answered(TooMany(rate)));
    var front := sent[..|sent| - 1];
    if sent[|sent| - 1] != r {
      assert sent == front + [sent[|sent| - 1]];
      ReportIsTurn(front, i, job, rate);
    }
  }

  lemma AnnouncedTurn(sent: seq<Report>, i: nat, rate: Rate)
    requires Reported(sent, i, rate)
    requires forall q, r :: 0 <= q < r < |sent| && sent[q].worker == sent[r].worker ==> !IsTooMany(sent[q])
    ensures var turns := TurnsOf(sent, i);
            turns != [] && turns[|turns| - 1].acquired && turns[|turns| - 1].answer == TooMany(rate)
  {
    var job :| Report(i, job, Answered(TooMany(rate))) in sent;
    ReportIsTurn(sent, i, job, rate);
    QuietBeforeLast(sent, i);
    var turns := TurnsOf(sent, i);
    var k :| 0 <= k < |turns| && turns[k] == Turn(job, true, TooMany(rate));
    assert turns[k].Announces();
  }

  // ---------------------------------------------------------------- what becomes of a 429

  /** In the run `es` from `s`, worker `i` has met a 429 and finds its context done, so that it leaves unheard. */
  predicate FindsDone(s: State, es: seq<Event>, i: nat)
    requires Run(s, es).Some?
    decreases |es|
  {
    es != [] && (FindsDoneNow(s, es[0], i) || FindsDone(Apply(s, es[0]), es[1..], i))
  }

  predicate FindsDoneNow(s: State, e: Event, i: nat)
    requires Enabled(s, e)
  {
    e == Step(i, Check) && s.workers[i].pc.answer.TooMany? && Done(s, s.workers[i].gen)
  }

  /** The agent has had an announcement from worker `i`. */
  predicate Heard(s: State, i: nat) {
    exists k :: 0 <= k < |s.agent.marks| && s.agent.marks[k].Announced? && s.agent.marks[k].worker == i
  }

  /** Worker `i` has met a 429 in its last turn and is done with it. */
  predicate Through(s: State, i: nat) {
    i < |s.workers| && IsLeaving(s.workers[i]) && Met(s.past.sent, i)
  }

  /** Worker `i` has reported a 429. */
  predicate Met(sent: seq<Report>, i: nat) {
    exists r :: 0 <= r < |sent| && sent[r].worker == i && IsTooMany(sent[r])
  }

  /** A worker that looks at its context after a failure has just reported that failure. */
  ghost predicate ChecksReported(s: State) {
    forall i :: 0 <= i < |s.workers| && s.workers[i].pc.Checking? && !s.workers[i].pc.answer.TooMany? ==>
      !Met(s.past.sent, i)
  }

  lemma MetMore(sent: seq<Report>, r: Report, i: nat)
    ensures Met(sent + [r], i) <==> Met(sent, i) || (r.worker == i && IsTooMany(r))
  {
    hide IsTooMany;
    if Met(sent, i) {
      var q :| 0 <= q < |sent| && sent[q].worker == i && IsTooMany(sent[q]);
      assert (sent + [r])[q] == sent[q];
    }
    if r.worker == i && IsTooMany(r) {
      assert (sent + [r])[|sent|] == r;
    }
  }

  /** Only the report of a 429 makes a worker one that has met it. */
  lemma StepMeets(s: State, i: nat, act: Act, j: nat)
    requires Enabled(s, Step(i, act))
    ensures Met(StepOf(s, i, act).past.sent, j) <==>
            Met(s.past.sent, j)
              || (i == j && act.SendResult? && s.workers[i].pc.Reporting? && s.workers[i].pc.answer.TooMany?)
  {
    hide Done, CanAnswer, CanSend, CanReceive, PoolAfter, AgentAfter, ClosedAfter, NextPc, Met;
    StepHistory(s, i, act);
    if act.SendRefused? || act.SendResult? {
      ReportsWhatItHolds(s, i, act);
      var r := SentBy(i, s.workers[i], act)[0];
      assert SentBy(i, s.workers[i], act) == [r];
      MetMore(s.past.sent, r, j);
    } else {
      assert StepOf(s, i, act).past.sent == s.past.sent;
    }
  }

  /** A worker at the top of its loop, or with a job, has met no 429. */
  lemma BusyHasNotMet(s: State, i: nat)
    requires LastWords(s) && i < |s.workers| && !Ending(s.workers[i])
    ensures !Met(s.past.sent, i)
  {
  }

  lemma StepKeepsChecks(s: State, i: nat, act: Act)
    requires ChecksReported(s) && LastWords(s) && Enabled(s, Step(i, act))
    ensures ChecksReported(StepOf(s, i, act))
  {
    var s' := StepOf(s, i, act);
    if s'.workers[i].pc.Checking? {
      CheckingHasReported(s, i, act);
    }
    hide Done, CanAnswer, CanSend, CanReceive, PoolAfter, AgentAfter, PastAfter, ClosedAfter, NextPc, Met, LastWords;
    forall j | 0 <= j < |s'.workers| && s'.workers[j].pc.Checking? && !s'.workers[j].pc.answer.TooMany?
      ensures !Met(s'.past.sent, j)
    {
      StepMeets(s, i, act, j);
    }
  }

  lemma CheckingHasReported(s: State, i: nat, act: Act)
    requires LastWords(s) && Enabled(s, Step(i, act)) && NextPc(s, s.workers[i], act).Checking?
    ensures act.SendResult? && s.workers[i].pc.Reporting?
      && NextPc(s, s.workers[i], act).answer == s.workers[i].pc.answer
    ensures !Met(s.past.sent, i)
  {
    hide Done, CanAnswer, CanSend, CanReceive, LastWords;
    BusyHasNotMet(s, i);
  }

  lemma EventKeepsChecks(s: State, e: Event)
    requires ChecksReported(s) && LastWords(s) && Enabled(s, e)
    ensures ChecksReported(Apply(s, e))
  {
    hide StepOf, AgentStep, RoutineStep, ActEnabled, AgentEnabled, RoutineEnabled, IsTooMany, CanResize, Resized;
    match e {
      case Step(i, act) => StepKeepsChecks(s, i, act);
      case AgentDoes(move) => AgentLeavesWorkers(s, move);
      case _ =>
    }
  }

  /** What one event adds to who has been heard and who is through: a worker with a 429 gets through by being heard or
      by finding its context done, and not both. */
  lemma StepOfThrough(s: State, i: nat, act: Act, j: nat)
    requires Inv(s) && ChecksReported(s) && Enabled(s, Step(i, act))
    ensures var (s', e) := (StepOf(s, i, act), Step(i, act));
            && (Heard(s', j) <==> Heard(s, j) || (i == j && act.Announce?))
            && (Through(s', j) <==> Through(s, j) || (i == j && act.Announce?) || FindsDoneNow(s, e, j))
            && (i == j && (act.Announce? || FindsDoneNow(s, e, j)) ==> !Through(s, j))
  {
    if i == j {
      ActsThrough(s, i, act);
    } else {
      OtherActsThrough(s, i, act, j);
    }
    ActIsHeard(s, i, act, j);
  }

  lemma ActIsHeard(s: State, i: nat, act: Act, j: nat)
    requires Inv(s) && Enabled(s, Step(i, act))
    ensures Heard(StepOf(s, i, act), j) <==> Heard(s, j) || (i == j && act.Announce?)
  {
    ActorIsLive(s, i, act);
    LiveMeansBusy(s, i);
    assert !s.closed.rate;
    assert OnItsWay(s.past.sent, s.pool.cancelled, s.workers[i], i);
    StepHeard(s, i, act);
    hide Inv, NextWorker, PoolAfter, PastAfter, ClosedAfter, Done, CanAnswer, CanSend, CanReceive, OnItsWay, Reported;
    var marks, marks' := s.agent.marks, StepOf(s, i, act).agent.marks;
    if act.Announce? {
      assert marks' == marks + [Announced(s.workers[i].gen, i, s.workers[i].pc.rate)];
      assert marks'[|marks|].worker == i;
    }
    if Heard(s, j) {
      var k :| 0 <= k < |marks| && marks[k].Announced? && marks[k].worker == j;
      assert marks'[k] == marks[k];
    }
  }

  /** How a worker comes to leave. */
  lemma StepLeaves(s: State, i: nat, act: Act)
    requires Enabled(s, Step(i, act))
    ensures var (w, w') := (s.workers[i], NextWorker(s, s.workers[i], act));
            && (IsLeaving(w') <==> IsLeaving(w) || act.SeeDone? || act.SeeClosed? || act.Announce?
                                   || (act.Check? && Done(s, w.gen)))
            && (IsLeaving(w) ==> act.Finish?)
            && (act.SeeDone? || act.SeeClosed? ==> w.pc.Selecting?)
            && (act.Announce? ==> w.pc.Announcing?) && (act.Check? ==> w.pc.Checking?)
  {
    hide Done, CanAnswer, CanSend, CanReceive;
  }

  lemma ActsThrough(s: State, i: nat, act: Act)
    requires Inv(s) && ChecksReported(s) && Enabled(s, Step(i, act))
    ensures var (s', e) := (StepOf(s, i, act), Step(i, act));
            && (Through(s', i) <==> Through(s, i) || act.Announce? || FindsDoneNow(s, e, i))
            && (act.Announce? || FindsDoneNow(s, e, i) ==> !Through(s, i))
  {
    WayIsMet(s, i);
    if s.workers[i].pc.Selecting? {
      BusyHasNotMet(s, i);
    }
    StepLeaves(s, i, act);
    StepMeets(s, i, act, i);
    hide Inv, CanAnswer, CanSend, CanReceive, PoolAfter, AgentAfter, PastAfter, ClosedAfter, NextPc, Met, Done,
      IsLeaving;
  }

  /** A worker on its way to announce has met a 429. */
  lemma WayIsMet(s: State, i: nat)
    requires Inv(s) && i < |s.workers|
    ensures s.workers[i].pc.Announcing? || (s.workers[i].pc.Checking? && s.workers[i].pc.answer.TooMany?) ==>
              Met(s.past.sent, i)
    ensures LastWords(s)
  {
    var w := s.workers[i];
    assert OnItsWay(s.past.sent, s.pool.cancelled, w, i);
    hide Inv;
    if w.pc.Announcing? || (w.pc.Checking? && w.pc.answer.TooMany?) {
      var rate := if w.pc.Announcing? then w.pc.rate else w.pc.answer.rate;
      var job :| Report(i, job, Answered(TooMany(rate))) in s.past.sent;
      var r :| 0 <= r < |s.past.sent| && s.past.sent[r] == Report(i, job, Answered(TooMany(rate)));
      assert s.past.sent[r].worker == i && IsTooMany(s.past.sent[r]);
    }
  }

  lemma OtherActsThrough(s: State, i: nat, act: Act, j: nat)
    requires Enabled(s, Step(i, act)) && j != i
    ensures Through(StepOf(s, i, act), j) <==> Through(s, j)
  {
    hide Done, CanAnswer, CanSend, CanReceive, PoolAfter, AgentAfter, PastAfter, ClosedAfter, NextPc, Met;
    StepMeets(s, i, act, j);
  }

  lemma EventOfThrough(s: State, e: Event, j: nat)
    requires Inv(s) && ChecksReported(s) && Enabled(s, e)
    ensures var s' := Apply(s, e);
            && (Heard(s', j) <==> Heard(s, j) || e == Step(j, Announce))
            && (Through(s', j) <==> Through(s, j) || e == Step(j, Announce) || FindsDoneNow(s, e, j))
            && (e == Step(j, Announce) || FindsDoneNow(s, e, j) ==> !Through(s, j))
            && !(e == Step(j, Announce) && FindsDoneNow(s, e, j))
  {
    match e {
      case Step(i, act) => StepOfThrough(s, i, act, j);
      case _ => OtherEventThrough(s, e, j);
    }
  }

  lemma OtherEventThrough(s: State, e: Event, j: nat)
    requires LastWords(s) && Enabled(s, e) && !e.Step?
    ensures Heard(Apply(s, e), j) <==> Heard(s, j)
    ensures Through(Apply(s, e), j) <==> Through(s, j)
  {
    hide StepOf, RoutineStep, ActEnabled, RoutineEnabled, CanResize, Resized, RestartCounter, StopWatcher, CloseOne,
      LimitFor;
    var s' := Apply(s, e);
    assert s'.past.sent == s.past.sent;
    if Heard(s, j) {
      var k :| 0 <= k < |s.agent.marks| && s.agent.marks[k].Announced? && s.agent.marks[k].worker == j;
      assert s'.agent.marks[k] == s.agent.marks[k];
    }
  }

  lemma {:induction false} RunOfThrough(s: State, es: seq<Event>, i: nat)
    requires Inv(s) && ChecksReported(s) && Run(s, es).Some?
    requires Heard(s, i) ==> Through(s, i)
    ensures var s' := Run(s, es).value;
            && (Heard(s', i) ==> Through(s', i)) && (Heard(s, i) ==> Heard(s', i))
            && (Through(s', i) <==> Through(s, i) || Heard(s', i) || FindsDone(s, es, i))
            && (Heard(s', i) && !Heard(s, i) ==> !FindsDone(s, es, i))
            && (Through(s, i) ==> !FindsDone(s, es, i) && (Heard(s', i) ==> Heard(s, i)))
    decreases |es|
  {
    hide Inv, Enabled, Apply, Heard, Through, ChecksReported, FindsDoneNow;
    if es != [] {
      var s1 := Apply(s, es[0]);
      EventOfThrough(s, es[0], i);
      EventKeepsChecks(s, es[0]) by { LastWordsHold(s); }
      EventKeeps(s, es[0]);
      RunOfThrough(s1, es[1..], i);
    }
  }

  lemma LastWordsHold(s: State)
    requires Inv(s)
    ensures LastWords(s)
  {
  }

  /** In every run, a worker that has met a 429 and left has either been heard, or had found its context done when it
      looked at it, and never both; and no other worker has been heard. */
  lemma HeardOrFoundDone(cfg: Config, es: seq<Event>, i: nat)
    requires Run(Init(cfg), es).Some?
    ensures var s := Run(Init(cfg), es).value;
            && (Through(s, i) <==> Heard(s, i) || FindsDone(Init(cfg), es, i))
            && !(Heard(s, i) && FindsDone(Init(cfg), es, i))
  {
    hide Inv, Run, FindsDone;
    InitInv(cfg);
    assert !Heard(Init(cfg), i) && !Through(Init(cfg), i) && ChecksReported(Init(cfg));
    RunOfThrough(Init(cfg), es, i);
  }

  lemma {:induction false} TurnIsMet(sent: seq<Report>, i: nat, k: nat)
    requires k < |TurnsOf(sent, i)| && TurnsOf(sent, i)[k].Announces()
    ensures Met(sent, i)
  {
    var front, r := sent[..|sent| - 1], sent[|sent| - 1];
    assert sent == front + [r];
    MetMore(front, r, i);
    if k < |TurnsOf(front, i)| {
      TurnIsMet(front, i, k);
    }
  }

  /** The last turn of the worker is a 429. */
  predicate EndsIn429(turns: seq<Turn>) {
    turns != [] && turns[|turns| - 1].Announces()
  }

  /** In every run, every worker of the pool does what its loop does alone. The jobs it has taken are, in order, those
      of the turns it has reported and the one in its hands. Its turns are all served: none comes after a 429. The
      requests it has counted are those of its turns with a token, and one under way. The only rate the agent has had
      from it is the one in its last turn; and once it has left with a 429, the agent has had that rate unless the
      worker had found its context done. */
  lemma RefinesLoop(cfg: Config, es: seq<Event>, i: nat)
    requires Run(Init(cfg), es).Some?
    ensures var s := Run(Init(cfg), es).value;
            var turns := TurnsOf(s.past.sent, i);
            && TakenIn(es, i) == TurnJobs(turns) + AsSeq(InHand(PcOf(s, i)))
            && Served(turns) == |turns|
            && CountedIn(es, i) == Acquired(turns) + (if Unreported(PcOf(s, i)) then 1 else 0)
            && (forall k :: 0 <= k < |s.agent.marks| && s.agent.marks[k].Announced? && s.agent.marks[k].worker == i ==>
                  turns != [] && turns[|turns| - 1].acquired
                    && turns[|turns| - 1].answer == TooMany(s.agent.marks[k].rate))
            && (i < |s.workers| && IsLeaving(s.workers[i]) && EndsIn429(turns) ==>
                  (Heard(s, i) <==> !FindsDone(Init(cfg), es, i)))
  {
    hide TurnsOf, Served, Acquired, TakenIn, CountedIn, Run, Reported, FindsDone, Heard, EndsIn429;
    var s := Run(Init(cfg), es).value;
    RunOfWorker(Init(cfg), es, i);
    NothingHad(cfg, i);
    NothingAfterA429(cfg, s);
    QuietBeforeLast(s.past.sent, i);
    AllServed(TurnsOf(s.past.sent, i));
    HeardRates(cfg, es, i);
    HeardOrFoundDone(cfg, es, i);
    if i < |s.workers| && IsLeaving(s.workers[i]) && EndsIn429(TurnsOf(s.past.sent, i)) {
      EndIsMet(s, i);
    }
  }

  lemma HeardRates(cfg: Config, es: seq<Event>, i: nat)
    requires Run(Init(cfg), es).Some?
    ensures var s := Run(Init(cfg), es).value;
            var turns := TurnsOf(s.past.sent, i);
            forall k :: 0 <= k < |s.agent.marks| && s.agent.marks[k].Announced? && s.agent.marks[k].worker == i ==>
              turns != [] && turns[|turns| - 1].acquired && turns[|turns| - 1].answer == TooMany(s.agent.marks[k].rate)
  {
    hide TurnsOf, Run, Reported;
    var s := Run(Init(cfg), es).value;
    AnnouncersOnce(cfg, s);
    NothingAfterA429(cfg, s);
    forall k | 0 <= k < |s.agent.marks| && s.agent.marks[k].Announced? && s.agent.marks[k].worker == i
      ensures var turns := TurnsOf(s.past.sent, i);
              turns != [] && turns[|turns| - 1].acquired && turns[|turns| - 1].answer == TooMany(s.agent.marks[k].rate)
    {
      AnnouncedTurn(s.past.sent, i, s.agent.marks[k].rate);
    }
  }

  lemma EndIsMet(s: State, i: nat)
    requires EndsIn429(TurnsOf(s.past.sent, i)) && i < |s.workers| && IsLeaving(s.workers[i])
    ensures Through(s, i)
  {
    TurnIsMet(s.past.sent, i, |TurnsOf(s.past.sent, i)| - 1);
  }

  lemma NothingHad(cfg: Config, i: nat)
    ensures Had(Init(cfg), i) == [] && Asked(Init(cfg), i) == 0
  {
    hide NewSema, StartWatcher;
  }

  lemma AllServed(turns: seq<Turn>)
    requires forall k :: 0 <= k < |turns| - 1 ==> !turns[k].Announces()
    ensures Served(turns) == |turns|
  {
    if Served(turns) < |turns| {
      assert false;
    }
  }
}
