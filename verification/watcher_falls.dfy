/** How a fact about a final order falls: from anything on its way, and from a queue when a worker can be had. With
    that, the exact condition under which it stands. */
module FinalFalls {
  import opened Results
  import opened Amounts
  import opened Errors
  import opened Tables
  import opened OrderRepo
  import opened Workers
  import P = Pipeline
  import T = PipelineTheorems
  import D = PipelineDrive
  import F = PipelineFree
  import opened Watching
  import opened FinalOrders

  // ---------------------------------------------------------------- leading from state to state

  /** Some run leads from `s` to `s'`. */
  ghost predicate Leads(s: System, s': System) {
    exists es :: Run(s, es) == Some(s')
  }

  lemma LeadsNowhere(s: System)
    ensures Leads(s, s)
  {
    assert Run(s, []) == Some(s);
  }

  lemma {:induction false} RunBoth(s: System, es: seq<Event>, fs: seq<Event>)
    requires Run(s, es).Some?
    ensures Run(s, es + fs) == Run(Run(s, es).value, fs)
    decreases |es|
  {
    hide Enabled, Apply;
    if es == [] {
      assert es + fs == fs;
    } else {
      assert (es + fs)[1..] == es[1..] + fs;
      RunBoth(Apply(s, es[0]), es[1..], fs);
    }
  }

  lemma LeadsFurther(s: System, s': System, s'': System)
    requires Leads(s, s') && Leads(s', s'')
    ensures Leads(s, s'')
  {
    hide Run;
    var es :| Run(s, es) == Some(s');
    var fs :| Run(s', fs) == Some(s'');
    RunBoth(s, es, fs);
  }

  lemma LeadsBy(s: System, e: Event)
    requires Enabled(s, e)
    ensures Leads(s, Apply(s, e))
  {
    hide Enabled, Apply;
    assert [e][1..] == [];
    assert Run(s, [e]) == Some(Apply(s, e));
  }

  lemma LeadsOn(s: System, s': System, e: Event)
    requires Leads(s, s') && Enabled(s', e)
    ensures Leads(s, Apply(s', e))
  {
    hide Enabled, Apply, Leads;
    LeadsBy(s', e);
    LeadsFurther(s, s', Apply(s', e));
  }

  // ---------------------------------------------------------------- runs of the pipeline as runs of the whole

  /** A silent run of the pipeline is a run of the whole. */
  lemma {:induction false} LiftRun(s: System, es: seq<P.Event>)
    requires P.Run(s.pipe, es).Some? && forall i :: 0 <= i < |es| ==> D.Allows(D.Silently, es[i])
    ensures Leads(s, s.(pipe := P.Run(s.pipe, es).value))
    decreases |es|
  {
    hide P.Enabled, P.Apply, Leads;
    if es == [] {
      LeadsNowhere(s);
    } else {
      assert D.Allows(D.Silently, es[0]) && Enabled(s, Pipe(es[0]));
      LeadsBy(s, Pipe(es[0]));
      var s1 := s.(pipe := P.Apply(s.pipe, es[0]));
      LiftRun(s1, es[1..]);
      LeadsFurther(s, s1, s.(pipe := P.Run(s.pipe, es).value));
    }
  }

  lemma LiftLeads(s: System, p: P.State)
    requires D.Leads(s.pipe, p, D.Silently)
    ensures Leads(s, s.(pipe := p))
  {
    hide P.Run, D.Allows, Leads;
    var es :| D.Drives(es, s.pipe, p, D.Silently);
    LiftRun(s, es);
  }

  /** A response under way is done with at once: its statement runs, or fails for good. */
  lemma WriteEnds(s: System) returns (s': System)
    ensures Leads(s, s') && s'.handling.None?
    ensures s'.pipe == s.pipe && s'.selections == s.selections && s'.dispatches == s.dispatches
  {
    hide Leads, StoredAmount, FromString, RealStatus, Restamp;
    if s.handling.None? {
      s' := s;
      LeadsNowhere(s);
    } else {
      var reply := if s.pipe.done then LostBefore(Opaque) else Delivered;
      UpdateAttemptExactly(s.tables, ResponseOrder(s.handling.value.info), reply);
      LeadsBy(s, Write(reply));
      s' := Apply(s, Write(reply));
    }
  }

  /** Worker `i` has handed over its result. */
  predicate IsReported(p: P.State, p': P.State, i: nat) {
    && i < |p.workers| && P.Enabled(p, P.Step(i, ResultAct(p.workers[i])))
    && p' == P.Apply(p, P.Step(i, ResultAct(p.workers[i])))
  }

  /** A worker hands over what it has to report. */
  lemma HandsOver(s: System, i: nat) returns (s': System)
    requires T.Inv(s.pipe) && Echoing(s) && s.handling.None? && i < |s.pipe.workers|
    requires s.pipe.workers[i].pc.Dropping? || s.pipe.workers[i].pc.Reporting?
    ensures Leads(s, s') && T.Inv(s'.pipe) && Echoing(s') && s'.selections == s.selections && s'.tables == s.tables
    ensures IsReported(s.pipe, s'.pipe, i)
    ensures s'.pipe.cfg == s.pipe.cfg && s'.pipe.done == s.pipe.done && s'.pipe.jobsClosed == s.pipe.jobsClosed
    ensures P.InHand(s.pipe.workers[i].pc).Some? && s'.handling.Some?
    ensures var pc := s.pipe.workers[i].pc;
            s'.handling.value.info ==
            InfoOf(P.InHand(pc).value, if D.AnswerOf(pc).Some? then Answered(D.AnswerOf(pc).value) else Refused)
  {
    hide Leads, T.Inv, P.Apply, P.Enabled, InfoOf, Echoing;
    LeadsBy(s, Respond(i));
    s' := Apply(s, Respond(i));
    ResultIsSent(s, i);
    HandOverHands(s.pipe, i, ResultAct(s.pipe.workers[i]));
    ResponseOfHands(s, i);
    T.EventKeeps(s.pipe, P.Step(i, ResultAct(s.pipe.workers[i])));
    RespondKeepsEcho(s, i);
  }

  lemma RespondKeepsEcho(s: System, i: nat)
    requires Echoing(s) && Enabled(s, Respond(i))
    ensures Echoing(Apply(s, Respond(i)))
  {
    hide P.Apply, P.Enabled, InfoOf;
    ResultIsSent(s, i);
    HandOverHands(s.pipe, i, ResultAct(s.pipe.workers[i]));
    ResponseOfHands(s, i);
    assert AnswerEchoes(s.pipe.workers[i].pc);
    RefusalEchoes(P.InHand(s.pipe.workers[i].pc).value);
    var sent, sent' := s.pipe.past.sent, Apply(s, Respond(i)).pipe.past.sent;
    forall k | 0 <= k < |sent'| ensures InfoAt(sent', k).order == sent'[k].job {
      assert k < |sent| ==> InfoAt(sent, k).order == sent[k].job && sent'[k] == sent[k];
    }
  }

  lemma RefusalEchoes(job: string)
    ensures InfoOf(job, Refused).order == job
    ensures forall a: Answer :: !a.Data? ==> InfoOf(job, Answered(a)).order == job
  {
  }

  lemma TameKeepsEcho(s: System, e: P.Event)
    requires Echoing(s) && P.Enabled(s.pipe, e) && D.Allows(D.Tamely, e) && D.Allows(D.Silently, e)
    ensures Echoing(s.(pipe := P.Apply(s.pipe, e)))
  {
    hide P.Apply, P.Enabled, InfoOf;
    var s' := s.(pipe := P.Apply(s.pipe, e));
    PipeHistories(s.pipe, e);
    assert Echoes(s');
    forall i | 0 <= i < |s'.pipe.workers| ensures AnswerEchoes(s'.pipe.workers[i].pc) {
      if e.Step? {
        WorkKeepsAnswer(s.pipe, e.i, e.act);
        assert AnswerEchoes(s.pipe.workers[i].pc);
        if i == e.i && P.InHand(s'.pipe.workers[i].pc).Some? {
          RefusalEchoes(P.InHand(s'.pipe.workers[i].pc).value);
        }
      } else {
        OthersLeavePcs(s.pipe, e);
        assert i < |s.pipe.workers| ==> AnswerEchoes(s.pipe.workers[i].pc);
      }
    }
  }

  /** A tame run of the pipeline is one of the whole, the watcher taking the results as they come. */
  lemma {:induction false} LiftTame(s: System, es: seq<P.Event>) returns (s': System)
    requires T.Inv(s.pipe) && Echoing(s)
    requires P.Run(s.pipe, es).Some? && forall i :: 0 <= i < |es| ==> D.Allows(D.Tamely, es[i])
    ensures Leads(s, s') && Echoing(s') && s'.pipe == P.Run(s.pipe, es).value
    decreases |es|
  {
    hide P.Enabled, P.Apply, Leads, T.Inv, Echoing;
    if es == [] {
      s' := s;
      LeadsNowhere(s);
    } else {
      assert D.Allows(D.Tamely, es[0]);
      var s1 := LiftEvent(s, es[0]);
      s' := LiftTame(s1, es[1..]);
      LeadsFurther(s, s1, s');
    }
  }

  lemma LiftEvent(s: System, e: P.Event) returns (s': System)
    requires T.Inv(s.pipe) && Echoing(s) && P.Enabled(s.pipe, e) && D.Allows(D.Tamely, e)
    ensures Leads(s, s') && T.Inv(s'.pipe) && Echoing(s') && s'.pipe == P.Apply(s.pipe, e)
  {
    hide Leads, T.Inv, Echoing, P.Apply, P.Enabled;
    if e.Step? && P.HandOver(e.act) {
      var s1 := WriteEnds(s);
      ReporterIsReady(s.pipe, e.i, e.act);
      assert Echoing(s1) by { SameEcho(s, s1); }
      s' := HandsOver(s1, e.i);
      LeadsFurther(s, s1, s');
    } else {
      assert Enabled(s, Pipe(e));
      LeadsBy(s, Pipe(e));
      s' := s.(pipe := P.Apply(s.pipe, e));
      T.EventKeeps(s.pipe, e);
      TameKeepsEcho(s, e);
    }
  }

  lemma SameEcho(s: System, s': System)
    requires Echoing(s) && s'.pipe == s.pipe
    ensures Echoing(s')
  {
  }

  lemma ReporterIsReady(p: P.State, i: nat, act: P.Act)
    requires P.Enabled(p, P.Step(i, act)) && P.HandOver(act) && !act.Take?
    ensures i < |p.workers| && (p.workers[i].pc.Dropping? || p.workers[i].pc.Reporting?)
    ensures ResultAct(p.workers[i]) == act
  {
  }

  // ---------------------------------------------------------------- whatever is on its way can break the fact

  /** Some echoing run breaks the fact about row `r`. */
  ghost predicate Falls(s: System, r: nat, f: Fact) {
    exists s' :: Leads(s, s') && Echoing(s') && !Holds(s', r, f)
  }

  /** What the lemmas below need to go on: the context is not done, and the fact holds of a final order. */
  ghost predicate Going(s: System, r: nat, f: Fact) {
    && T.Inv(s.pipe) && s.pipe.cfg.counterCapacity > 0 && !s.pipe.done
    && Echoing(s) && Holds(s, r, f) && IsFinal(f.status)
  }

  lemma FallsFurther(s: System, s': System, r: nat, f: Fact)
    requires Leads(s, s') && Falls(s', r, f)
    ensures Falls(s, r, f)
  {
    hide Leads, Echoing, Holds;
    var s'' :| Leads(s', s'') && Echoing(s'') && !Holds(s'', r, f);
    LeadsFurther(s, s', s'');
  }

  lemma MarkFalls(s: System, k: nat, r: nat, f: Fact)
    requires Going(s, r, f) && k < |s.selections| && Marking(s.selections[k], f.name)
    ensures Falls(s, r, f)
  {
    hide T.Inv, Run, UpdateAttempt, Leads;
    LeadsBy(s, Watching.Mark(k, Delivered));
    BreaksExactly(s, Watching.Mark(k, Delivered), r, f);
    SameEcho(s, Apply(s, Watching.Mark(k, Delivered)));
  }

  lemma AnswerFalls(s: System, r: nat, f: Fact)
    requires Going(s, r, f) && Answering(s.handling, f)
    ensures Falls(s, r, f)
  {
    hide T.Inv, Run, UpdateAttempt, Effective, Leads;
    LeadsBy(s, Write(Delivered));
    BreaksExactly(s, Write(Delivered), r, f);
    SameEcho(s, Apply(s, Write(Delivered)));
  }

  /** A call that has come to nothing leaves the order in progress. */
  lemma FailureIsEffective(f: Fact, outcome: Outcome)
    requires IsFinal(f.status) && outcome in {Refused, Answered(Failed)}
    ensures Effective(InfoOf(f.name, outcome), f)
  {
    EmptyIsNoAmount();
    ZeroIsNull();
  }

  lemma EmptyIsNoAmount()
    ensures FromString("").Err?
  {
    AcceptedLanguage("");
  }

  /** A worker hands over an effective result, which is stored. */
  lemma ReportFalls(s: System, i: nat, r: nat, f: Fact)
    requires Going(s, r, f) && s.handling.None? && i < |s.pipe.workers|
    requires s.pipe.workers[i].pc.Dropping? || s.pipe.workers[i].pc.Reporting?
    requires P.InHand(s.pipe.workers[i].pc) == Some(f.name)
    requires var a := D.AnswerOf(s.pipe.workers[i].pc);
             Effective(InfoOf(f.name, if a.Some? then Answered(a.value) else Refused), f)
    ensures Falls(s, r, f)
  {
    hide T.Inv, Leads, P.Apply, InfoOf, Effective, Echoing;
    var s' := HandsOver(s, i);
    AnswerFalls(s', r, f);
    FallsFurther(s, s', r, f);
  }

  /** A worker with the order in its hands can bring it to a report that breaks the fact. */
  lemma WorkFalls(s: System, i: nat, r: nat, f: Fact)
    requires Going(s, r, f) && i < |s.pipe.workers| && InWork(s.pipe.workers[i].pc, f)
    ensures Falls(s, r, f)
  {
    hide T.Inv, Leads, D.Leads, Effective, InfoOf, Echoing;
    var p := D.ToReport(s.pipe, i);
    var s1 := s.(pipe := p);
    LiftLeads(s, p);
    ReportKeepsEcho(s, p, i);
    var s2 := WriteEnds(s1);
    LeadsFurther(s, s1, s2);
    SameEcho(s1, s2);
    if Holds(s2, r, f) {
      FailureIsEffective(f, Refused);
      FailureIsEffective(f, Answered(Failed));
      ReportFalls(s2, i, r, f);
      FallsFurther(s, s2, r, f);
    }
  }

  /** Bringing a worker to its report leaves the echoes as they are. */
  lemma ReportKeepsEcho(s: System, p: P.State, i: nat)
    requires Echoing(s) && D.Worked(s.pipe, p, i) && P.InHand(p.workers[i].pc) == P.InHand(s.pipe.workers[i].pc)
    requires var a := D.AnswerOf(s.pipe.workers[i].pc);
             if a.Some? then D.AnswerOf(p.workers[i].pc) == a else D.AnswerOf(p.workers[i].pc) in {None, Some(Failed)}
    ensures Echoing(s.(pipe := p))
  {
    hide InfoOf;
    var s' := s.(pipe := p);
    assert AnswerEchoes(s.pipe.workers[i].pc);
    if P.InHand(p.workers[i].pc).Some? {
      RefusalEchoes(P.InHand(p.workers[i].pc).value);
    }
    forall j | 0 <= j < |p.workers| ensures AnswerEchoes(p.workers[j].pc) {
      assert j != i ==> AnswerEchoes(s.pipe.workers[j].pc);
    }
    forall k | 0 <= k < |p.past.sent| ensures InfoAt(p.past.sent, k).order == p.past.sent[k].job {
      assert InfoAt(s.pipe.past.sent, k).order == s.pipe.past.sent[k].job;
    }
  }

  lemma UnderwayFalls(s: System, r: nat, f: Fact)
    requires Going(s, r, f) && Underway(s, f)
    ensures Falls(s, r, f)
  {
    hide Going, Falls, Marking, InWork;
    if k :| 0 <= k < |s.selections| && Marking(s.selections[k], f.name) {
      MarkFalls(s, k, r, f);
    } else if i :| 0 <= i < |s.pipe.workers| && InWork(s.pipe.workers[i].pc, f) {
      WorkFalls(s, i, r, f);
    } else {
      AnswerFalls(s, r, f);
    }
  }

  // ---------------------------------------------------------------- so can a queue, when a worker is free

  predicate CanHand(s: System, k: nat, i: nat) {
    && k < |s.selections| && s.selections[k].marking.None? && s.selections[k].next < |s.selections[k].queue|
    && F.Free(s.pipe, i)
  }

  /** A free worker takes the next order of a selection. */
  lemma HandsOn(s: System, k: nat, i: nat) returns (s': System)
    requires T.Inv(s.pipe) && Echoing(s) && CanHand(s, k, i)
    ensures Leads(s, s') && T.Inv(s'.pipe) && Echoing(s') && s'.tables == s.tables
    ensures s'.pipe.cfg == s.pipe.cfg && s'.pipe.done == s.pipe.done && !s'.pipe.jobsClosed
    ensures s'.selections == s.selections[k := s.selections[k].(marking := Some(0))]
    ensures |s'.pipe.workers| == |s.pipe.workers|
    ensures s'.pipe.workers[i].pc == P.Entering(s.selections[k].queue[s.selections[k].next])
  {
    hide Leads, T.Inv, InfoOf;
    var act := P.Take(s.selections[k].queue[s.selections[k].next]);
    LeadsBy(s, Hand(k, i));
    s' := Apply(s, Hand(k, i));
    T.EventKeeps(s.pipe, P.Step(i, act));
    PipeHistories(s.pipe, P.Step(i, act));
    HandOverHands(s.pipe, i, act);
    assert s'.pipe.past.sent == s.pipe.past.sent;
    TakeKeepsEcho(s, s', i);
  }

  lemma TakeKeepsEcho(s: System, s': System, i: nat)
    requires Echoing(s) && |s'.pipe.workers| == |s.pipe.workers| && i < |s.pipe.workers|
    requires forall j :: 0 <= j < |s.pipe.workers| && j != i ==> s'.pipe.workers[j] == s.pipe.workers[j]
    requires D.AnswerOf(s'.pipe.workers[i].pc) == None && s'.pipe.past.sent == s.pipe.past.sent
    ensures Echoing(s')
  {
    hide InfoOf;
    forall j | 0 <= j < |s'.pipe.workers| ensures AnswerEchoes(s'.pipe.workers[j].pc) {
      assert j != i ==> AnswerEchoes(s.pipe.workers[j].pc);
    }
    forall k | 0 <= k < |s'.pipe.past.sent| ensures InfoAt(s'.pipe.past.sent, k).order == s'.pipe.past.sent[k].job {
      assert InfoAt(s.pipe.past.sent, k).order == s.pipe.past.sent[k].job;
    }
  }

  /** A worker that has no token yet gives its order up, and is free again. */
  lemma GivesUp(s: System, i: nat) returns (s': System)
    requires T.Inv(s.pipe) && Echoing(s) && s.handling.None?
    requires i < |s.pipe.workers| && s.pipe.workers[i].pc.Dropping? && !s.pipe.jobsClosed
    ensures Leads(s, s') && T.Inv(s'.pipe) && Echoing(s') && s'.pipe.cfg == s.pipe.cfg && s'.pipe.done == s.pipe.done
    ensures s'.selections == s.selections && F.Free(s'.pipe, i)
  {
    hide Leads, T.Inv, Echoing;
    s' := HandsOver(s, i);
  }

  /** A free worker takes the next order of a selection and gives it up, and any response under way is done with. */
  lemma PassesBy(s: System, k: nat, i: nat) returns (s': System)
    requires T.Inv(s.pipe) && s.pipe.cfg.counterCapacity > 0 && Echoing(s) && CanHand(s, k, i)
    ensures Leads(s, s') && T.Inv(s'.pipe) && Echoing(s') && s'.pipe.cfg == s.pipe.cfg && s'.pipe.done == s.pipe.done
    ensures s'.selections == s.selections[k := s.selections[k].(marking := Some(0))] && F.Free(s'.pipe, i)
  {
    hide Leads, D.Leads, T.Inv, P.Run, Echoing;
    var s1 := HandsOn(s, k, i);
    var p := D.ToReport(s1.pipe, i);
    var s2 := s1.(pipe := p);
    LiftLeads(s1, p);
    ReportKeepsEcho(s1, p, i);
    LeadsFurther(s, s1, s2);
    var s3 := WriteEnds(s2);
    SameEcho(s2, s3);
    LeadsFurther(s, s2, s3);
    s' := GivesUp(s3, i);
    LeadsFurther(s, s3, s');
  }

  lemma {:induction false} QueueFalls(s: System, k: nat, j: nat, i: nat, r: nat, f: Fact)
    requires Going(s, r, f) && F.Free(s.pipe, i) && k < |s.selections|
    requires s.selections[k].next <= j < |s.selections[k].queue| && s.selections[k].queue[j] == f.name
    ensures Falls(s, r, f)
    decreases 2 * (j - s.selections[k].next) + if s.selections[k].marking.None? then 1 else 0
  {
    hide T.Inv, Leads, Run, Falls, F.Free, UpdateAttempt, Echoing, Holds;
    var c := s.selections[k];
    if c.marking.Some? && c.next == j {
      MarkFalls(s, k, r, f);
    } else if c.marking.None? && c.next == j {
      var s1 := HandsOn(s, k, i);
      KeepsOrFalls(s, s1, r, f);
      if Holds(s1, r, f) {
        MarkFalls(s1, k, r, f);
        FallsFurther(s, s1, r, f);
      }
    } else {
      var s1;
      if c.marking.Some? {
        s1 := MarksOn(s, k);
        SameEcho(s, s1);
      } else {
        s1 := PassesBy(s, k, i);
      }
      KeepsOrFalls(s, s1, r, f);
      if Holds(s1, r, f) {
        QueueFalls(s1, k, j, i, r, f);
        FallsFurther(s, s1, r, f);
      }
    }
  }

  /** A selection marks its order, the statement running. */
  lemma MarksOn(s: System, k: nat) returns (s': System)
    requires k < |s.selections| && s.selections[k].marking.Some? && s.selections[k].next < |s.selections[k].queue|
    requires !s.pipe.done
    ensures Leads(s, s') && s'.pipe == s.pipe
    ensures s'.selections == s.selections[k := s.selections[k].(marking := None, next := s.selections[k].next + 1)]
  {
    hide Leads, StoredAmount, Restamp, Updated;
    UpdateAttemptExactly(s.tables, DispatchedOrder(s.selections[k].queue[s.selections[k].next]), Delivered);
    LeadsBy(s, Watching.Mark(k, Delivered));
    s' := Apply(s, Watching.Mark(k, Delivered));
  }

  lemma KeepsOrFalls(s: System, s': System, r: nat, f: Fact)
    requires Leads(s, s') && Echoing(s')
    ensures Holds(s', r, f) || Falls(s, r, f)
  {
  }

  lemma WaitingFalls(s: System, k: nat, i: nat, r: nat, f: Fact)
    requires Going(s, r, f) && F.Free(s.pipe, i) && k < |s.selections| && Queued(s.selections[k], f.name)
    ensures Falls(s, r, f)
  {
    hide Going, Falls, F.Free;
    var c := s.selections[k];
    var j :| c.next <= j < |c.queue| && c.queue[j] == f.name && (j == c.next ==> c.marking.None?);
    QueueFalls(s, k, j, i, r, f);
  }

  // ---------------------------------------------------------------- the exact condition

  /** An order that waits goes on waiting, unless it is dispatched. */
  lemma WaitsOn(s: System, e: Event, f: Fact)
    requires Waiting(s, f.name) && Enabled(s, e)
    ensures Waiting(Apply(s, e), f.name) || Underway(Apply(s, e), f)
  {
    hide P.Apply, P.Enabled, UpdateAttempt, InsertAccrual, Selectable, InWork, Answering, NextAttempt;
    var s' := Apply(s, e);
    var k :| 0 <= k < |s.selections| && Queued(s.selections[k], f.name);
    var c, c' := s.selections[k], s'.selections[k];
    var j :| c.next <= j < |c.queue| && c.queue[j] == f.name && (j == c.next ==> c.marking.None?);
    if c'.next <= j && (j == c'.next ==> c'.marking.None?) {
      assert Queued(c', f.name);
    } else {
      assert Marking(c', f.name);
    }
  }

  lemma EventKeepsGoing(s: System, e: Event, r: nat, f: Fact)
    requires Going(s, r, f) && Enabled(s, e) && Echoing(Apply(s, e)) && !Apply(s, e).pipe.done
    ensures Going(Apply(s, e), r, f) || Falls(s, r, f)
  {
    hide T.Inv, Enabled, Apply, Leads, Echoing, Holds;
    EventKeepsPipe(s, e);
    EventKeepsRest(s, e);
    LeadsBy(s, e);
  }

  lemma {:induction false} RunDone(s: System, es: seq<Event>)
    requires Run(s, es).Some? && !Run(s, es).value.pipe.done
    ensures !s.pipe.done
    decreases |es|
  {
    hide Enabled, Apply;
    if es != [] {
      RunDone(Apply(s, es[0]), es[1..]);
      EventKeepsRest(s, es[0]);
    }
  }

  /** Along an echoing run, an order that waits goes on waiting and the fact about it holds, or the fact can fall. */
  lemma {:induction false} WaitsOrFalls(s: System, es: seq<Event>, r: nat, f: Fact)
    requires Going(s, r, f) && Waiting(s, f.name)
    requires Run(s, es).Some? && Echoing(Run(s, es).value) && !Run(s, es).value.pipe.done
    ensures (Going(Run(s, es).value, r, f) && Waiting(Run(s, es).value, f.name)) || Falls(s, r, f)
    decreases |es|
  {
    hide Going, Enabled, Apply, Waiting, Underway, Falls, Echoing, Leads;
    if es != [] {
      var s1 := Apply(s, es[0]);
      RunEchoes(s1, es[1..]);
      RunDone(s1, es[1..]);
      EventKeepsGoing(s, es[0], r, f);
      WaitsOn(s, es[0], f);
      LeadsBy(s, es[0]);
      if Going(s1, r, f) {
        if Waiting(s1, f.name) {
          WaitsOrFalls(s1, es[1..], r, f);
        } else {
          UnderwayFalls(s1, r, f);
        }
        if Falls(s1, r, f) {
          FallsFurther(s, s1, r, f);
        }
      }
    }
  }

  /** Once the context is done no statement runs, and no row changes. */
  lemma {:induction false} DoneStands(s: System, es: seq<Event>, r: nat, f: Fact)
    requires s.pipe.done && Holds(s, r, f) && Run(s, es).Some?
    ensures Holds(Run(s, es).value, r, f)
    decreases |es|
  {
    hide Enabled, Apply, Holds;
    if es != [] {
      BreaksExactly(s, es[0], r, f);
      NothingRuns(s, es[0], f);
      EventKeepsRest(s, es[0]);
      DoneStands(Apply(s, es[0]), es[1..], r, f);
    }
  }

  lemma NothingRuns(s: System, e: Event, f: Fact)
    requires s.pipe.done && Enabled(s, e)
    ensures !Breaks(s, e, f)
  {
    hide P.Enabled, Effective;
  }

  lemma EventKeepsBarred(s: System, e: Event)
    requires T.Inv(s.pipe) && !F.CanFree(s.pipe) && Enabled(s, e)
    ensures !F.CanFree(Apply(s, e).pipe)
  {
    hide T.Inv, P.Apply, P.Enabled, F.CanFree, UpdateAttempt, InsertAccrual, Selectable;
    match e {
      case Pipe(pe) => F.EventKeepsBarred(s.pipe, pe);
      case Hand(k, i) => F.EventKeepsBarred(s.pipe, P.Step(i, P.Take(s.selections[k].queue[s.selections[k].next])));
      case Respond(i) =>
        ResultIsSent(s, i);
        F.EventKeepsBarred(s.pipe, P.Step(i, ResultAct(s.pipe.workers[i])));
      case _ =>
    }
  }

  /** While no worker can ever be free, nothing is dispatched, and a fact that nothing threatens stands. */
  lemma {:induction false} BarredForever(s: System, es: seq<Event>, r: nat, f: Fact)
    requires T.Inv(s.pipe) && !F.CanFree(s.pipe)
    requires IsFinal(f.status) && !Underway(s, f) && Holds(s, r, f)
    requires Run(s, es).Some? && Echoing(Run(s, es).value)
    ensures Holds(Run(s, es).value, r, f)
    decreases |es|
  {
    hide T.Inv, F.CanFree, Enabled, Apply, Underway, Holds, Echoing;
    if s.pipe.done {
      DoneStands(s, es, r, f);
    } else if es != [] {
      var s1 := Apply(s, es[0]);
      RunEchoes(s, es);
      HandNeedsFree(s, es[0]);
      EventKeepsBarred(s, es[0]);
      EventKeepsPipe(s, es[0]);
      UndisturbedStays(s, es[0], r, f);
      BarredForever(s1, es[1..], r, f);
    }
  }

  lemma HandNeedsFree(s: System, e: Event)
    requires Enabled(s, e) && !s.pipe.done
    ensures e.Hand? ==> F.CanFree(s.pipe)
  {
    if e.Hand? {
      F.FreeNow(s.pipe, e.i);
    }
  }

  /** The exact condition, for any final order in any reachable state, and for its status as well as for its whole row:
      no echoing run breaks the fact if and only if the context is done, or no mark, call or response that can break it
      is on its way, and the order is not waiting to be dispatched to a worker that can be had. */
  lemma FinalStandsExactly(cfg: P.Config, t: Tables, s: System, r: nat, whole: bool)
    requires Valid(t) && Reachable(cfg, t, s) && Echoing(s) && cfg.counterCapacity > 0
    requires r < |s.tables.accrued| && IsFinal(s.tables.accrued[r].info)
    ensures var f := FactOf(s.tables.accrued[r], whole);
            !Falls(s, r, f) <==>
            s.pipe.done || (!Underway(s, f) && !(Waiting(s, f.name) && F.CanFree(s.pipe)))
  {
    hide Watching.Reachable, Run, Leads, T.Inv, Queued, Marking, InWork, Answering, F.CanFree, Falls, Waiting, Underway,
      Echoing;
    var f := FactOf(s.tables.accrued[r], whole);
    ReachableIsGoing(cfg, t, s);
    if s.pipe.done {
      StandsWhenDone(s, r, f);
    } else if Underway(s, f) {
      UnderwayFalls(s, r, f);
    } else if !Waiting(s, f.name) {
      SettledStands(s, r, f);
    } else if F.CanFree(s.pipe) {
      FreedFalls(s, r, f);
    } else {
      BarredStands(s, r, f);
    }
  }

  lemma StandsWhenDone(s: System, r: nat, f: Fact)
    requires s.pipe.done && Holds(s, r, f)
    ensures !Falls(s, r, f)
  {
    hide Echoing, Holds, Run;
    if s' :| Leads(s, s') && Echoing(s') && !Holds(s', r, f) {
      var es :| Run(s, es) == Some(s');
      DoneStands(s, es, r, f);
    }
  }

  lemma FreedFalls(s: System, r: nat, f: Fact)
    requires Going(s, r, f) && Waiting(s, f.name) && F.CanFree(s.pipe)
    ensures Falls(s, r, f)
  {
    hide Falls, F.Free, F.CanFree, Echoing, Queued, Run, P.Run, D.Allows, T.Inv, Holds;
    var p, i := F.Frees(s.pipe);
    var ps :| D.Drives(ps, s.pipe, p, D.Tamely);
    var s' := LiftTame(s, ps);
    var es :| Run(s, es) == Some(s');
    WaitsOrFalls(s, es, r, f);
    if Going(s', r, f) && Waiting(s', f.name) {
      var k :| 0 <= k < |s'.selections| && Queued(s'.selections[k], f.name);
      WaitingFalls(s', k, i, r, f);
      FallsFurther(s, s', r, f);
    }
  }

  lemma BarredStands(s: System, r: nat, f: Fact)
    requires Going(s, r, f) && !Underway(s, f) && !F.CanFree(s.pipe)
    ensures !Falls(s, r, f)
  {
    hide T.Inv, Underway, F.CanFree, Echoing, Holds, Run;
    if s' :| Leads(s, s') && Echoing(s') && !Holds(s', r, f) {
      var es :| Run(s, es) == Some(s');
      BarredForever(s, es, r, f);
    }
  }

  lemma SettledStands(s: System, r: nat, f: Fact)
    requires Going(s, r, f) && UniqueNames(s.tables.accrued) && !Underway(s, f) && !Waiting(s, f.name)
    ensures !Falls(s, r, f)
  {
    hide T.Inv, Underway, Waiting, UniqueNames, Echoing, Holds, Run;
    if s' :| Leads(s, s') && Echoing(s') && !Holds(s', r, f) {
      var es :| Run(s, es) == Some(s');
      SettledForever(s, es, r, f);
    }
  }

  lemma {:induction false} RunKeepsRest(s: System, es: seq<Event>)
    requires Run(s, es).Some?
    ensures UniqueNames(s.tables.accrued) ==> UniqueNames(Run(s, es).value.tables.accrued)
    ensures Run(s, es).value.pipe.cfg == s.pipe.cfg
    decreases |es|
  {
    hide Enabled, Apply, UniqueNames;
    if es != [] {
      EventKeepsRest(s, es[0]);
      RunKeepsRest(Apply(s, es[0]), es[1..]);
    }
  }

  lemma EventKeepsRest(s: System, e: Event)
    requires Enabled(s, e)
    ensures UniqueNames(s.tables.accrued) ==> UniqueNames(Apply(s, e).tables.accrued)
    ensures Apply(s, e).pipe.cfg == s.pipe.cfg
    ensures s.pipe.done ==> Apply(s, e).pipe.done
  {
    hide UniqueNames, UpdateAttempt, InsertAccrual, P.Apply, P.Enabled, Selectable;
    if UniqueNames(s.tables.accrued) {
      NamesStayUnique(s, e);
    }
    match e {
      case Pipe(pe) => PipeRest(s.pipe, pe);
      case Hand(k, i) => PipeRest(s.pipe, P.Step(i, P.Take(s.selections[k].queue[s.selections[k].next])));
      case Respond(i) =>
        ResultIsSent(s, i);
        PipeRest(s.pipe, P.Step(i, ResultAct(s.pipe.workers[i])));
      case _ =>
    }
  }

  lemma PipeRest(p: P.State, e: P.Event)
    requires P.Enabled(p, e)
    ensures P.Apply(p, e).cfg == p.cfg && (p.done ==> P.Apply(p, e).done)
  {
    hide P.Apply, P.Enabled;
    T.EventConfigured(p.cfg, p, e);
    if p.done {
      F.DoneIsForGood(p, e);
    }
  }

  lemma ReachableIsGoing(cfg: P.Config, t: Tables, s: System)
    requires Valid(t) && Reachable(cfg, t, s)
    ensures T.Inv(s.pipe) && s.pipe.cfg == cfg && UniqueNames(s.tables.accrued)
  {
    hide Run, T.Inv;
    ReachableInv(cfg, t, s);
    var es :| Run(Init(cfg, t), es) == Some(s);
    RunKeepsRest(Init(cfg, t), es);
  }
}
