/** What becomes of a final order. Nothing in the code makes INVALID and PROCESSED final, nor the points that come with
    them; this says when they stand. */
module FinalOrders {
  import opened Results
  import opened Amounts
  import opened Tables
  import opened OrderRepo
  import opened Semaphores
  import opened Workers
  import P = Pipeline
  import D = PipelineDrive
  import opened Watching

  /** What is claimed of an order: its status, and its amount too if one is given. */
  datatype Fact = Fact(name: string, status: Status, amount: Option<Option<int>>)

  predicate IsFinal(status: Status) {
    status == Invalid || status == Processed
  }

  /** A row of this status and amount is not as the fact has it. */
  predicate Differs(f: Fact, status: Status, amount: Option<int>) {
    status != f.status || (f.amount.Some? && amount != f.amount.value)
  }

  predicate Holds(s: System, r: nat, f: Fact) {
    && r < |s.tables.accrued| && s.tables.accrued[r].name == f.name
    && !Differs(f, s.tables.accrued[r].info, s.tables.accrued[r].amount)
  }

  /** Everything there is to know of a row, or its status alone. */
  function FactOf(row: AccrualRow, whole: bool): Fact {
    Fact(row.name, row.info, if whole then Some(row.amount) else None)
  }

  // ---------------------------------------------------------------- one event

  /** Storing this response would break the fact. */
  predicate Effective(info: Info, f: Fact) {
    && info.order == f.name && RealStatus(info.status) != Unset
    && ValidAmount(StoredAmount(ResponseOrder(info).amount))
    && Differs(f, RealStatus(info.status), StoredAmount(ResponseOrder(info).amount))
  }

  /** The event breaks the fact. */
  predicate Breaks(s: System, e: Event, f: Fact)
    requires Enabled(s, e)
  {
    match e
    case Mark(k, reply) =>
      !reply.LostBefore? && s.selections[k].queue[s.selections[k].next] == f.name && Differs(f, Processing, None)
    case Write(reply) => !reply.LostBefore? && Effective(s.handling.value.info, f)
    case _ => false
  }

  /** A fact about a row is broken in one event exactly when a dispatch marks the order or a response about it is
      stored, the statement runs, and what it stamps is acceptable and different. Whether the old status is final has
      no say. */
  lemma BreaksExactly(s: System, e: Event, r: nat, f: Fact)
    requires Enabled(s, e) && Holds(s, r, f)
    ensures r < |Apply(s, e).tables.accrued| && Apply(s, e).tables.accrued[r].name == f.name
    ensures Holds(Apply(s, e), r, f) <==> !Breaks(s, e, f)
  {
    hide P.Apply, UpdateAttempt, StoredAmount, FromString, RealStatus;
    match e {
      case Mark(k, reply) =>
        UpdateIsUnconditional(s.tables, DispatchedOrder(s.selections[k].queue[s.selections[k].next]), reply, r);
        ZeroIsNull();
      case Write(reply) =>
        UpdateIsUnconditional(s.tables, ResponseOrder(s.handling.value.info), reply, r);
      case _ =>
    }
  }

  // ---------------------------------------------------------------- what is still on its way

  /** A worker has the order in its hands, and the call can still fail, or has an answer that would break the fact. */
  predicate InWork(pc: P.Pc, f: Fact) {
    P.InHand(pc) == Some(f.name) &&
    (D.AnswerOf(pc).Some? ==> Effective(InfoOf(f.name, Answered(D.AnswerOf(pc).value)), f))
  }

  /** The selection has dispatched the order and is about to mark it. */
  predicate Marking(c: Selection, name: string) {
    c.marking.Some? && c.next < |c.queue| && c.queue[c.next] == name
  }

  /** The selection has the order still to dispatch. */
  predicate Queued(c: Selection, name: string) {
    exists j :: c.next <= j < |c.queue| && c.queue[j] == name && (j == c.next ==> c.marking.None?)
  }

  predicate Answering(h: Option<Handling>, f: Fact) {
    h.Some? && Effective(h.value.info, f)
  }

  /** Something that can break the fact is on its way: a mark, a call, or a response. */
  ghost predicate Underway(s: System, f: Fact) {
    || (exists k :: 0 <= k < |s.selections| && Marking(s.selections[k], f.name))
    || (exists i :: 0 <= i < |s.pipe.workers| && InWork(s.pipe.workers[i].pc, f))
    || Answering(s.handling, f)
  }

  ghost predicate Waiting(s: System, name: string) {
    exists k :: 0 <= k < |s.selections| && Queued(s.selections[k], name)
  }

  /** The client answers for the order it was asked about, in what is reported and in what is about to be. */
  ghost predicate Echoing(s: System) {
    Echoes(s) && forall i :: 0 <= i < |s.pipe.workers| ==> AnswerEchoes(s.pipe.workers[i].pc)
  }

  predicate AnswerEchoes(pc: P.Pc) {
    P.InHand(pc).Some? && D.AnswerOf(pc).Some? ==>
      InfoOf(P.InHand(pc).value, Answered(D.AnswerOf(pc).value)).order == P.InHand(pc).value
  }

  /** A final order about which nothing is on its way or waiting. */
  ghost predicate Settled(s: System, f: Fact) {
    IsFinal(f.status) && !Underway(s, f) && !Waiting(s, f.name) && UniqueNames(s.tables.accrued)
  }

  // ---------------------------------------------------------------- what one event brings on its way

  lemma NotSelected(rows: seq<AccrualRow>, r: nat)
    requires UniqueNames(rows) && r < |rows| && IsFinal(rows[r].info)
    ensures rows[r].name !in Selectable(rows)
  {
    SelectableExactly(rows);
  }

  lemma NamesStayUnique(s: System, e: Event)
    requires UniqueNames(s.tables.accrued) && Enabled(s, e)
    ensures UniqueNames(Apply(s, e).tables.accrued)
  {
    hide P.Apply, P.Enabled, UpdateAttempt, StoredAmount, FromString, RealStatus, Selectable, Complaint;
    match e {
      case Mark(k, reply) =>
        UpdateKeepsUnique(s.tables, DispatchedOrder(s.selections[k].queue[s.selections[k].next]), reply);
      case Write(reply) => UpdateKeepsUnique(s.tables, ResponseOrder(s.handling.value.info), reply);
      case _ =>
    }
  }

  lemma UpdateKeepsUnique(t: Tables, o: Order, reply: Reply)
    requires UniqueNames(t.accrued)
    ensures UniqueNames(UpdateAttempt(t, o, reply).0.accrued)
  {
    hide StoredAmount;
    UpdateAttemptExactly(t, o, reply);
    RestampUnique(t.accrued, o.id, o.status, StoredAmount(o.amount));
  }

  /** What a worker does between hand-overs brings nothing new on the way. */
  lemma WorkBringsNothing(p: P.State, i: nat, act: P.Act, f: Fact)
    requires P.Enabled(p, P.Step(i, act)) && !P.HandOver(act)
    ensures var p' := P.Apply(p, P.Step(i, act));
            && |p'.workers| == |p.workers|
            && (forall j :: 0 <= j < |p.workers| && j != i ==> p'.workers[j] == p.workers[j])
            && (InWork(p'.workers[i].pc, f) ==> InWork(p.workers[i].pc, f))
  {
    hide P.Done, P.CanAnswer, CanSend, CanReceive, Effective, InfoOf, P.PoolAfter, P.AgentAfter, P.ClosedAfter,
      P.PastAfter;
  }

  /** Nothing but a worker's own doings touches the workers there are. */
  lemma OthersLeavePcs(p: P.State, e: P.Event)
    requires P.Enabled(p, e) && !e.Step?
    ensures var p' := P.Apply(p, e);
            && |p.workers| <= |p'.workers|
            && forall j :: 0 <= j < |p'.workers| ==>
                 p'.workers[j].pc == if j < |p.workers| then p.workers[j].pc else P.Selecting
  {
    hide P.RoutineStep, P.RoutineEnabled, P.RestartCounter, P.StopWatcher, P.CloseOne, P.LimitFor, CanResize;
  }

  /** A hand-over leaves a worker with the job it took or with none. */
  lemma HandOverHands(p: P.State, i: nat, act: P.Act)
    requires P.Enabled(p, P.Step(i, act)) && P.HandOver(act)
    ensures var p' := P.Apply(p, P.Step(i, act));
            && |p'.workers| == |p.workers|
            && (forall j :: 0 <= j < |p.workers| && j != i ==> p'.workers[j] == p.workers[j])
            && P.InHand(p'.workers[i].pc) == (if act.Take? then Some(act.job) else None)
            && D.AnswerOf(p'.workers[i].pc) == None
            && p'.jobsClosed == p.jobsClosed && p'.cfg == p.cfg && p'.done == p.done
  {
    hide P.Done, P.CanAnswer, CanSend, CanReceive, P.AgentAfter, P.ClosedAfter, P.PastAfter;
  }

  /** The response a worker hands over is the one for the job in its hands. */
  lemma ResponseOfHands(s: System, i: nat)
    requires Enabled(s, Respond(i))
    ensures var (pc, sent') := (s.pipe.workers[i].pc, Apply(s, Respond(i)).pipe.past.sent);
            && P.InHand(pc).Some?
            && sent' == s.pipe.past.sent + [sent'[|s.pipe.past.sent|]]
            && sent'[|s.pipe.past.sent|].job == P.InHand(pc).value
            && Apply(s, Respond(i)).handling ==
               Some(Handling(InfoOf(P.InHand(pc).value,
                                    if D.AnswerOf(pc).Some? then Answered(D.AnswerOf(pc).value) else Refused), 0))
            && Apply(s, Respond(i)).handling.value.info == InfoAt(sent', |s.pipe.past.sent|)
  {
    hide P.NextWorker, P.PoolAfter, P.AgentAfter, P.ClosedAfter, InfoOf;
  }

  lemma ResultIsSent(s: System, i: nat)
    requires Enabled(s, Respond(i))
    ensures P.Enabled(s.pipe, P.Step(i, ResultAct(s.pipe.workers[i]))) && P.HandOver(ResultAct(s.pipe.workers[i]))
  {
  }

  lemma PipeBringsNothing(s: System, e: Event, f: Fact)
    requires !Underway(s, f) && Enabled(s, e) && e.Pipe?
    ensures !Underway(Apply(s, e), f)
  {
    hide P.Apply, P.Enabled, Effective, Marking;
    match e.e {
      case Step(i, act) => WorkBringsNothing(s.pipe, i, act, f);
      case _ => OthersLeavePcs(s.pipe, e.e);
    }
  }

  lemma HandBringsNothing(s: System, e: Event, f: Fact)
    requires !Underway(s, f) && Enabled(s, e) && e.Hand?
    requires s.selections[e.k].queue[s.selections[e.k].next] != f.name
    ensures !Underway(Apply(s, e), f)
  {
    hide P.Apply, P.Enabled, Effective;
    var c := s.selections[e.k];
    HandOverHands(s.pipe, e.i, P.Take(c.queue[c.next]));
  }

  lemma MarkBringsNothing(s: System, e: Event, f: Fact)
    requires !Underway(s, f) && Enabled(s, e) && e.Mark?
    ensures !Underway(Apply(s, e), f)
  {
    hide P.Apply, Effective, UpdateAttempt, InWork, NextAttempt;
    forall k | 0 <= k < |s.selections| ensures !Marking(Apply(s, e).selections[k], f.name) {
      assert !Marking(s.selections[k], f.name);
    }
  }

  lemma RespondBringsNothing(s: System, e: Event, f: Fact)
    requires !Underway(s, f) && Enabled(s, e) && e.Respond? && Echoing(s)
    ensures !Underway(Apply(s, e), f)
  {
    hide P.Apply, P.Enabled, Marking, Effective, Echoes, AnswerEchoes;
    var pc := s.pipe.workers[e.i].pc;
    ResultIsSent(s, e.i);
    HandOverHands(s.pipe, e.i, ResultAct(s.pipe.workers[e.i]));
    ResponseOfHands(s, e.i);
    if Answering(Apply(s, e).handling, f) {
      AnswerWasInWork(pc, Apply(s, e).handling.value.info, f);
    }
  }

  lemma AnswerWasInWork(pc: P.Pc, info: Info, f: Fact)
    requires P.InHand(pc).Some? && AnswerEchoes(pc) && Effective(info, f)
    requires info ==
      InfoOf(P.InHand(pc).value, if D.AnswerOf(pc).Some? then Answered(D.AnswerOf(pc).value) else Refused)
    ensures InWork(pc, f)
  {
    hide RealStatus, ResponseOrder, StoredAmount, Differs;
  }

  /** When nothing that can break a fact about a final order is on its way, an event of an echoing run brings nothing
      on its way and breaks nothing, unless it dispatches the order. */
  lemma UndisturbedStays(s: System, e: Event, r: nat, f: Fact)
    requires IsFinal(f.status) && !Underway(s, f) && Holds(s, r, f) && Echoing(s) && Enabled(s, e)
    requires e.Hand? ==> s.selections[e.k].queue[s.selections[e.k].next] != f.name
    ensures !Underway(Apply(s, e), f) && Holds(Apply(s, e), r, f)
  {
    hide P.Apply, P.Enabled, UpdateAttempt, Effective, InsertAccrual, Echoing, Selectable, InWork, Holds;
    BreaksExactly(s, e, r, f);
    match e {
      case Pipe(_) => PipeBringsNothing(s, e, f);
      case Hand(_, _) => HandBringsNothing(s, e, f);
      case Mark(k, _) =>
        assert !Marking(s.selections[k], f.name);
        MarkBringsNothing(s, e, f);
      case Respond(_) => RespondBringsNothing(s, e, f);
      case _ =>
    }
  }

  /** A final order that no selection has still to dispatch is not selected again. */
  lemma NothingWaits(s: System, e: Event, r: nat, f: Fact)
    requires IsFinal(f.status) && Holds(s, r, f) && UniqueNames(s.tables.accrued) && Enabled(s, e)
    requires !Waiting(s, f.name)
    ensures !Waiting(Apply(s, e), f.name)
    ensures e.Hand? ==> s.selections[e.k].queue[s.selections[e.k].next] != f.name
  {
    if e.Tick? {
      NotSelected(s.tables.accrued, r);
    }
    hide P.Apply, P.Enabled, UpdateAttempt, InsertAccrual, Selectable, UniqueNames;
    var s' := Apply(s, e);
    forall k | 0 <= k < |s'.selections| ensures !Queued(s'.selections[k], f.name) {
      assert k < |s.selections| ==> !Queued(s.selections[k], f.name);
    }
    if e.Hand? {
      assert !Queued(s.selections[e.k], f.name);
    }
  }

  // ---------------------------------------------------------------- whole runs

  /** In an echoing run a settled order stays settled, and the fact about it holds. */
  lemma SettledStays(s: System, e: Event, r: nat, f: Fact)
    requires Settled(s, f) && Holds(s, r, f) && Enabled(s, e) && Echoing(s)
    ensures Settled(Apply(s, e), f) && Holds(Apply(s, e), r, f)
  {
    hide Apply, Enabled, Underway, Waiting, UniqueNames, Holds, Echoing;
    NothingWaits(s, e, r, f);
    UndisturbedStays(s, e, r, f);
    NamesStayUnique(s, e);
  }

  lemma EchoesBefore(s: System, e: Event)
    requires Enabled(s, e) && Echoes(Apply(s, e))
    ensures Echoes(s)
  {
    hide P.Apply, UpdateAttempt, InsertAccrual, Selectable, InfoOf, RealStatus;
    var sent, sent' := s.pipe.past.sent, Apply(s, e).pipe.past.sent;
    match e {
      case Pipe(pe) => PipeHistories(s.pipe, pe);
      case Hand(k, i) => PipeHistories(s.pipe, P.Step(i, P.Take(s.selections[k].queue[s.selections[k].next])));
      case Respond(i) => PipeHistories(s.pipe, P.Step(i, ResultAct(s.pipe.workers[i])));
      case _ =>
    }
    forall i | 0 <= i < |sent| ensures InfoAt(sent, i).order == sent[i].job {
      assert InfoAt(sent', i).order == sent'[i].job && sent'[i] == sent[i];
    }
  }

  /** Between hand-overs a worker keeps the answer it has. */
  lemma WorkKeepsAnswer(p: P.State, i: nat, act: P.Act)
    requires P.Enabled(p, P.Step(i, act)) && !P.HandOver(act)
    ensures var (p', pc) := (P.Apply(p, P.Step(i, act)), p.workers[i].pc);
            && |p'.workers| == |p.workers|
            && (forall j :: 0 <= j < |p.workers| && j != i ==> p'.workers[j] == p.workers[j])
            && P.InHand(p'.workers[i].pc) == P.InHand(pc)
            && (D.AnswerOf(pc).Some? ==> D.AnswerOf(p'.workers[i].pc) == D.AnswerOf(pc))
            && (!act.Answer? ==> D.AnswerOf(p'.workers[i].pc) == D.AnswerOf(pc))
            && (act.Answer? ==> D.AnswerOf(p'.workers[i].pc) == Some(act.answer))
  {
    hide P.Done, P.CanAnswer, CanSend, CanReceive, P.PoolAfter, P.AgentAfter, P.ClosedAfter, P.PastAfter;
  }

  lemma EchoingBefore(s: System, e: Event)
    requires Enabled(s, e) && Echoing(Apply(s, e))
    ensures Echoing(s)
  {
    hide P.Apply, P.Enabled, UpdateAttempt, InsertAccrual, Selectable, InfoOf, RealStatus, Echoes;
    EchoesBefore(s, e);
    var s' := Apply(s, e);
    forall i | 0 <= i < |s.pipe.workers| ensures AnswerEchoes(s.pipe.workers[i].pc) {
      match e {
        case Pipe(pe) =>
          if pe.Step? {
            WorkKeepsAnswer(s.pipe, pe.i, pe.act);
          } else {
            OthersLeavePcs(s.pipe, pe);
          }
          assert AnswerEchoes(s'.pipe.workers[i].pc);
        case Hand(k, j) =>
          HandOverHands(s.pipe, j, P.Take(s.selections[k].queue[s.selections[k].next]));
          TakerHasNoAnswer(s.pipe, j, s.selections[k].queue[s.selections[k].next]);
          assert i != j ==> AnswerEchoes(s'.pipe.workers[i].pc);
        case Respond(j) =>
          ResultIsSent(s, j);
          HandOverHands(s.pipe, j, ResultAct(s.pipe.workers[j]));
          if i == j {
            RespondedEcho(s, j);
          } else {
            assert AnswerEchoes(s'.pipe.workers[i].pc);
          }
        case _ => assert AnswerEchoes(s'.pipe.workers[i].pc);
      }
    }
  }

  lemma TakerHasNoAnswer(p: P.State, i: nat, job: string)
    requires P.Enabled(p, P.Step(i, P.Take(job)))
    ensures P.InHand(p.workers[i].pc) == None
  {
  }

  lemma RespondedEcho(s: System, i: nat)
    requires Enabled(s, Respond(i)) && Echoes(Apply(s, Respond(i)))
    ensures AnswerEchoes(s.pipe.workers[i].pc)
  {
    hide P.Apply, P.Enabled, InfoOf;
    ResponseOfHands(s, i);
    assert InfoAt(Apply(s, Respond(i)).pipe.past.sent, |s.pipe.past.sent|).order ==
           Apply(s, Respond(i)).pipe.past.sent[|s.pipe.past.sent|].job;
  }

  lemma {:induction false} RunEchoes(s: System, es: seq<Event>)
    requires Run(s, es).Some? && Echoing(Run(s, es).value)
    ensures Echoing(s)
    decreases |es|
  {
    hide Enabled, Apply, Echoing;
    if es != [] {
      RunEchoes(Apply(s, es[0]), es[1..]);
      EchoingBefore(s, es[0]);
    }
  }

  lemma {:induction false} SettledForever(s: System, es: seq<Event>, r: nat, f: Fact)
    requires Settled(s, f) && Holds(s, r, f)
    requires Run(s, es).Some? && Echoing(Run(s, es).value)
    ensures Holds(Run(s, es).value, r, f)
    decreases |es|
  {
    hide Enabled, Apply, Settled, Holds, Echoing;
    if es != [] {
      RunEchoes(s, es);
      RunEchoes(Apply(s, es[0]), es[1..]);
      SettledStays(s, es[0], r, f);
      SettledForever(Apply(s, es[0]), es[1..], r, f);
    }
  }
}
