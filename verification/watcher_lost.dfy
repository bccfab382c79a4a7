/** Runs from the start in which a processed order loses its status, or its points, or both. */
module LostAccruals {
  import opened Results
  import opened Amounts
  import opened Tables
  import opened OrderRepo
  import opened Workers
  import P = Pipeline
  import T = PipelineTheorems
  import D = PipelineDrive
  import K = PipelineStuck
  import opened Watching
  import opened FinalOrders
  import opened FinalFalls

  /** All workers are free, and nothing but calls has happened to the pool. */
  ghost predicate Idle(p: P.State) {
    && K.Calm(p) && |p.workers| > 0
    && forall j :: 0 <= j < |p.workers| ==> p.workers[j] == P.Worker(0, P.Selecting, false)
  }

  /** The first worker is about to report what its call returned, and the others are free. */
  ghost predicate Busy(p: P.State, job: string, info: Info) {
    && K.Calm(p) && |p.workers| > 0 && p.workers[0] == P.Worker(0, P.Reporting(job, Data(info)), false)
    && forall j :: 0 < j < |p.workers| ==> p.workers[j] == P.Worker(0, P.Selecting, false)
  }

  /** The reports of a first worker that the client has answered so. */
  function Answers(infos: seq<Info>): seq<P.Report> {
    seq(|infos|, i requires 0 <= i < |infos| => P.Report(0, infos[i].order, Answered(Data(infos[i]))))
  }

  lemma Starts(cfg: P.Config, t: Tables) returns (s: System)
    requires cfg.workerCount > 0 && cfg.maxRequests > 0 && cfg.counterCapacity > 0
    ensures Leads(Init(cfg, t), s) && s == Init(cfg, t).(pipe := K.Opened(cfg)) && Idle(s.pipe)
    ensures s.pipe.past.sent == [] && |s.pipe.workers| == cfg.workerCount
  {
    hide Leads, D.Leads, K.Calm, P.Has;
    K.OpenedIsCalm(cfg);
    s := Init(cfg, t).(pipe := K.Opened(cfg));
    LiftLeads(Init(cfg, t), K.Opened(cfg));
  }

  /** A selection dispatches its next order to the first worker, and the call returns `info`. */
  lemma Dispatches(s: System, k: nat, info: Info) returns (s': System)
    requires Idle(s.pipe) && k < |s.selections| && s.selections[k].marking.None?
    requires s.selections[k].next < |s.selections[k].queue|
    ensures Leads(s, s') && Busy(s'.pipe, s.selections[k].queue[s.selections[k].next], info)
    ensures s' == s.(pipe := s'.pipe, selections := s.selections[k := s.selections[k].(marking := Some(0))],
                     dispatches := s.dispatches + [Dispatch(s.selections[k].queue[s.selections[k].next], k)])
    ensures s'.pipe.past.sent == s.pipe.past.sent && |s'.pipe.workers| == |s.pipe.workers|
  {
    hide Leads, D.Leads, K.Calm;
    var job := s.selections[k].queue[s.selections[k].next];
    var p1 := K.TakesJob(s.pipe, 0, job);
    PipeHistories(s.pipe, P.Step(0, P.Take(job)));
    LeadsBy(s, Hand(k, 0));
    var s1 := Apply(s, Hand(k, 0));
    var p2 := K.CallsCalmly(p1, 0, job, Data(info));
    LiftLeads(s1, p2);
    s' := s1.(pipe := p2);
    LeadsFurther(s, s1, s');
  }

  /** The first worker reports to the watcher. */
  lemma Responds(s: System, job: string, info: Info) returns (s': System)
    requires Busy(s.pipe, job, info) && s.handling.None?
    ensures Leads(s, s') && Idle(s'.pipe)
    ensures s' == s.(pipe := s'.pipe, handling := Some(Handling(info, 0)))
    ensures s'.pipe.past.sent == s.pipe.past.sent + [P.Report(0, job, Answered(Data(info)))]
    ensures |s'.pipe.workers| == |s.pipe.workers|
  {
    hide Leads, T.Inv;
    LeadsBy(s, Respond(0));
    s' := Apply(s, Respond(0));
    T.EventKeeps(s.pipe, P.Step(0, P.SendResult));
    ResponseOfHands(s, 0);
  }

  /** The watcher stores a response, the statement running. */
  lemma Stores(s: System) returns (s': System)
    requires s.handling.Some? && s.handling.value.counter == 0 && !s.pipe.done
    ensures Leads(s, s') && s'.handling.None? && s'.pipe == s.pipe && s'.selections == s.selections
    ensures s'.applied == s.applied + [s.handling.value.info.order] && s'.dispatches == s.dispatches
    ensures var o := ResponseOrder(s.handling.value.info);
            s'.tables == if Acceptable(s.tables, o) then Updated(s.tables, o) else s.tables
  {
    hide Leads, StoredAmount, FromString, RealStatus, Restamp;
    UpdateAttemptExactly(s.tables, ResponseOrder(s.handling.value.info), Delivered);
    LeadsBy(s, Write(Delivered));
    s' := Apply(s, Write(Delivered));
  }

  /** The client's answer that an order has been processed, with an amount that fits. */
  predicate Processes(info: Info, name: string) {
    info.order == name && info.status == "PROCESSED" && ValidAmount(StoredAmount(ResponseOrder(info).amount))
  }

  lemma ProcessedRow(t: Tables, info: Info, r: nat)
    requires r < |t.accrued| && Processes(info, t.accrued[r].name)
    ensures Acceptable(t, ResponseOrder(info))
    ensures Updated(t, ResponseOrder(info)).accrued[r] ==
            t.accrued[r].(info := Processed, amount := StoredAmount(ResponseOrder(info).amount))
  {
    hide StoredAmount, FromString;
  }

  /** The tables have an order to select, and row `r` is the one selected first. */
  predicate FirstSelected(t: Tables, r: nat) {
    r < |t.accrued| && Selectable(t.accrued) != [] && Selectable(t.accrued)[0] == t.accrued[r].name
  }

  /** A processed order is on record, and its own dispatch has yet to mark it. */
  ghost predicate MarkIsLate(cfg: P.Config, t: Tables, s: System, r: nat, amount: Option<int>) {
    && Reachable(cfg, t, s) && Echoing(s) && |s.dispatches| == 1 && |s.applied| == 1
    && r < |s.tables.accrued| == |t.accrued|
    && s.tables.accrued[r] == t.accrued[r].(info := Processed, amount := amount)
    && Enabled(s, Watching.Mark(0, Delivered))
    && r < |Apply(s, Watching.Mark(0, Delivered)).tables.accrued|
    && Apply(s, Watching.Mark(0, Delivered)).tables.accrued[r] == t.accrued[r].(info := Processing, amount := None)
  }

  /** The mark of a dispatch may come after the response to it: then a processed order goes back to PROCESSING and its
      points to NULL, with one dispatch and one response, in every pool and for every such answer of the client. */
  lemma LateMarkLosesAccrual(cfg: P.Config, t: Tables, r: nat, info: Info)
    requires cfg.workerCount > 0 && cfg.maxRequests > 0 && cfg.counterCapacity > 0
    requires FirstSelected(t, r) && Processes(info, t.accrued[r].name)
    ensures exists s :: MarkIsLate(cfg, t, s, r, StoredAmount(ResponseOrder(info).amount))
  {
    hide Leads, Watching.Reachable, Idle, Busy, Updated, Acceptable, ResponseOrder, StoredAmount, Selectable,
      UpdateAttempt, Run;
    var s1 := Starts(cfg, t);
    var s2 := Apply(s1, Tick);
    LeadsOn(Init(cfg, t), s1, Tick);
    var s3 := Dispatches(s2, 0, info);
    LeadsFurther(Init(cfg, t), s2, s3);
    var s4 := Responds(s3, t.accrued[r].name, info);
    LeadsFurther(Init(cfg, t), s3, s4);
    IdleIsNotDone(s4.pipe);
    var s5 := Stores(s4);
    LeadsFurther(Init(cfg, t), s4, s5);
    StartReaches(cfg, t, s5);
    ProcessedRow(t, info, r);
    UpdatedLength(t, ResponseOrder(info));
    UpdateIsUnconditional(s5.tables, DispatchedOrder(t.accrued[r].name), Delivered, r);
    MarkIsAcceptable(s5.tables, r);
    assert Echoing(s5) by { EchoOf(s5, [info]); }
    assert MarkIsLate(cfg, t, s5, r, StoredAmount(ResponseOrder(info).amount));
  }

  lemma IdleIsNotDone(p: P.State)
    requires Idle(p)
    ensures !p.done
  {
  }

  lemma BusyIsNotDone(p: P.State, job: string, info: Info)
    requires Busy(p, job, info)
    ensures !p.done
  {
  }

  lemma EchoOf(s: System, infos: seq<Info>)
    requires Idle(s.pipe) && s.pipe.past.sent == Answers(infos)
    ensures Echoing(s)
  {
  }

  lemma UpdatedLength(t: Tables, o: Order)
    ensures |Updated(t, o).accrued| == |t.accrued|
  {
  }

  lemma MarkIsAcceptable(t: Tables, r: nat)
    requires r < |t.accrued|
    ensures Acceptable(t, DispatchedOrder(t.accrued[r].name))
    ensures StoredAmount(DispatchedOrder(t.accrued[r].name).amount) == None
  {
    ZeroIsNull();
  }

  lemma StartReaches(cfg: P.Config, t: Tables, s: System)
    requires Leads(Init(cfg, t), s)
    ensures Reachable(cfg, t, s)
  {
    var es :| Run(Init(cfg, t), es) == Some(s);
  }

  /** A processed order is on record with the amount of `info`, all workers are free, no mark is outstanding, and the
      response `again` is about to be stored. */
  ghost predicate ResponseIsLate(cfg: P.Config, t: Tables, s: System, r: nat, info: Info, again: Info) {
    && Reachable(cfg, t, s) && Echoing(s) && Idle(s.pipe)
    && var selection := Selection(t.accrued, Selectable(t.accrued), 1, None);
    s.selections == [selection, selection]
    && r < |s.tables.accrued| == |t.accrued|
    && s.tables.accrued[r] == t.accrued[r].(info := Processed, amount := StoredAmount(ResponseOrder(info).amount))
    && s.handling == Some(Handling(again, 0)) && Enabled(s, Write(Delivered))
    && |Apply(s, Write(Delivered)).tables.accrued| == |s.tables.accrued|
    && Apply(s, Write(Delivered)).tables.accrued[r] ==
       t.accrued[r].(info := RealStatus(again.status), amount := StoredAmount(ResponseOrder(again).amount))
  }

  /** The selection marks its order. */
  lemma Marks(s: System, k: nat) returns (s': System)
    requires k < |s.selections| && s.selections[k].marking.Some? && s.selections[k].next < |s.selections[k].queue|
    requires !s.pipe.done
    ensures Leads(s, s') && s' == s.(tables := s'.tables, selections := s'.selections)
    ensures s'.selections == s.selections[k := s.selections[k].(marking := None, next := s.selections[k].next + 1)]
    ensures |s'.tables.accrued| == |s.tables.accrued|
    ensures forall i :: 0 <= i < |s.tables.accrued| ==>
              s'.tables.accrued[i].name == s.tables.accrued[i].name
                && s'.tables.accrued[i].user == s.tables.accrued[i].user
  {
    hide Leads, StoredAmount;
    UpdateAttemptExactly(s.tables, DispatchedOrder(s.selections[k].queue[s.selections[k].next]), Delivered);
    LeadsBy(s, Watching.Mark(k, Delivered));
    s' := Apply(s, Watching.Mark(k, Delivered));
  }

  /** A response that would be accepted for the order. */
  predicate IsAcceptable(info: Info, name: string) {
    info.order == name && RealStatus(info.status) != Unset && ValidAmount(StoredAmount(ResponseOrder(info).amount))
  }

  /** Two selections see the order, and it is dispatched twice; the client answers first that it is processed. Whatever
      acceptable answer it gives then replaces the first, status and amount: by REGISTERED the order is in progress
      again, and by PROCESSED without an amount it keeps its status and loses its points. */
  lemma LateResponseReplaces(cfg: P.Config, t: Tables, r: nat, info: Info, again: Info)
    requires cfg.workerCount > 0 && cfg.maxRequests > 0 && cfg.counterCapacity > 0
    requires FirstSelected(t, r) && Processes(info, t.accrued[r].name) && IsAcceptable(again, t.accrued[r].name)
    ensures exists s :: ResponseIsLate(cfg, t, s, r, info, again)
  {
    hide Leads, Watching.Reachable, Idle, Busy, Updated, Acceptable, ResponseOrder, StoredAmount, Selectable,
      UpdateAttempt, Run, IsAcceptable, Processes;
    var s1 := Starts(cfg, t);
    IdleIsNotDone(s1.pipe);
    LeadsOn(Init(cfg, t), s1, Tick);
    var s2 := Apply(s1, Tick);
    LeadsOn(Init(cfg, t), s2, Tick);
    var s3 := Apply(s2, Tick);
    var s4 := Dispatches(s3, 0, info);
    LeadsFurther(Init(cfg, t), s3, s4);
    BusyIsNotDone(s4.pipe, t.accrued[r].name, info);
    var s5 := Marks(s4, 0);
    LeadsFurther(Init(cfg, t), s4, s5);
    var s6 := Responds(s5, t.accrued[r].name, info);
    LeadsFurther(Init(cfg, t), s5, s6);
    var s7 := Dispatches(s6, 1, again);
    LeadsFurther(Init(cfg, t), s6, s7);
    BusyIsNotDone(s7.pipe, t.accrued[r].name, again);
    var s8 := Marks(s7, 1);
    LeadsFurther(Init(cfg, t), s7, s8);
    OrdersAgree(info, again, t.accrued[r].name);
    SecondHalf(cfg, t, s8, r, info, again);
  }

  lemma OrdersAgree(info: Info, again: Info, name: string)
    requires Processes(info, name) && IsAcceptable(again, name)
    ensures info.order == name && again.order == name
  {
  }

  lemma SecondHalf(cfg: P.Config, t: Tables, s: System, r: nat, info: Info, again: Info)
    requires Leads(Init(cfg, t), s) && r < |s.tables.accrued| == |t.accrued|
    requires s.tables.accrued[r].name == t.accrued[r].name && s.tables.accrued[r].user == t.accrued[r].user
    requires Processes(info, t.accrued[r].name) && IsAcceptable(again, t.accrued[r].name)
    requires s.handling == Some(Handling(info, 0)) && Busy(s.pipe, again.order, again)
    requires s.pipe.past.sent == Answers([info])
    requires s.selections
      == [Selection(t.accrued, Selectable(t.accrued), 1, None), Selection(t.accrued, Selectable(t.accrued), 1, None)]
    ensures exists s' :: ResponseIsLate(cfg, t, s', r, info, again)
  {
    hide Leads, Watching.Reachable, Idle, Busy, Updated, Acceptable, StoredAmount, ResponseOrder, UpdateAttempt, Run,
      Apply, Echoing, Enabled, RealStatus, Selectable;
    BusyIsNotDone(s.pipe, again.order, again);
    var s1 := Stores(s);
    LeadsFurther(Init(cfg, t), s, s1);
    ProcessedRow(s.tables, info, r);
    UpdatedLength(s.tables, ResponseOrder(info));
    var s2 := Responds(s1, again.order, again);
    LeadsFurther(Init(cfg, t), s1, s2);
    StartReaches(cfg, t, s2);
    assert s2.pipe.past.sent == Answers([info, again]);
    EchoOf(s2, [info, again]);
    IdleIsNotDone(s2.pipe);
    ReplacedNow(s2, r, again);
    assert ResponseIsLate(cfg, t, s2, r, info, again);
  }

  /** Storing an acceptable response replaces what is on record. */
  lemma ReplacedNow(s: System, r: nat, again: Info)
    requires r < |s.tables.accrued| && s.handling == Some(Handling(again, 0)) && !s.pipe.done
    requires IsAcceptable(again, s.tables.accrued[r].name)
    ensures Enabled(s, Write(Delivered)) && |Apply(s, Write(Delivered)).tables.accrued| == |s.tables.accrued|
    ensures Apply(s, Write(Delivered)).tables.accrued[r] ==
            s.tables.accrued[r].(info := RealStatus(again.status), amount := StoredAmount(ResponseOrder(again).amount))
  {
    hide StoredAmount, FromString, UpdateAttempt;
    UpdateIsUnconditional(s.tables, ResponseOrder(again), Delivered, r);
  }

  /** One worker, one new order of one user, and ten roubles earned. */
  function OneOrder(user: string): Tables {
    Tables({user}, [Row(user, "1", New, Some(0))], [])
  }

  const EARNED := Info("1", "PROCESSED", "10")
  const EARNED_NOTHING := Info("1", "PROCESSED", "")

  /** With numbers: the ten roubles are on record, and then lost to the mark of their own dispatch. */
  lemma LostTenRoubles(user: string)
    ensures exists s :: MarkIsLate(P.Config(1, 1, 1), OneOrder(user), s, 0, Some(1000))
  {
    TenRoubles();
    OneSelected(user);
    LateMarkLosesAccrual(P.Config(1, 1, 1), OneOrder(user), 0, EARNED);
  }

  lemma OneSelected(user: string)
    ensures Selectable(OneOrder(user).accrued) == ["1"]
  {
    assert OneOrder(user).accrued[..0] == [];
  }

  /** The ten roubles are on record and the status is safe for good, and yet they can be lost. */
  ghost predicate StatusSafePointsNot(user: string, s: System) {
    && Reachable(P.Config(1, 1, 1), OneOrder(user), s) && Echoing(s)
    && s.tables.accrued == [Row(user, "1", Processed, Some(1000))]
    && !Falls(s, 0, FactOf(s.tables.accrued[0], false)) && Falls(s, 0, FactOf(s.tables.accrued[0], true))
    && Enabled(s, Write(Delivered)) && Apply(s, Write(Delivered)).tables.accrued == [Row(user, "1", Processed, None)]
  }

  /** With numbers: two dispatches, answered PROCESSED with ten roubles and then PROCESSED without an amount. */
  lemma LostToASecondAnswer(user: string)
    ensures exists s :: StatusSafePointsNot(user, s)
  {
    hide ResponseIsLate, StatusSafePointsNot, OneOrder;
    BothAcceptable(user);
    LateResponseReplaces(P.Config(1, 1, 1), OneOrder(user), 0, EARNED, EARNED_NOTHING);
    var s :| ResponseIsLate(P.Config(1, 1, 1), OneOrder(user), s, 0, EARNED, EARNED_NOTHING);
    LosesPoints(s, user);
  }

  lemma BothAcceptable(user: string)
    ensures FirstSelected(OneOrder(user), 0) && OneOrder(user).accrued[0].name == "1"
    ensures Processes(EARNED, "1") && IsAcceptable(EARNED_NOTHING, "1")
  {
    TenRoubles();
    NothingEarned();
    OneSelected(user);
    hide FromString, ResponseOrder, StoredAmount, Selectable;
  }

  lemma LosesPoints(s: System, user: string)
    requires ResponseIsLate(P.Config(1, 1, 1), OneOrder(user), s, 0, EARNED, EARNED_NOTHING)
    ensures StatusSafePointsNot(user, s)
  {
    hide FromString, ResponseOrder, StoredAmount, Selectable, RealStatus, Watching.Reachable, Echoing, Idle, Falls,
      UpdateAttempt, FactOf;
    TenRoubles();
    NothingEarned();
    OneSelected(user);
    assert s.tables.accrued == [Row(user, "1", Processed, Some(1000))];
    assert Apply(s, Write(Delivered)).tables.accrued == [Row(user, "1", Processed, None)];
    StatusIsSafe(s, user);
  }

  lemma StatusIsSafe(s: System, user: string)
    requires ResponseIsLate(P.Config(1, 1, 1), OneOrder(user), s, 0, EARNED, EARNED_NOTHING)
    requires s.tables.accrued == [Row(user, "1", Processed, Some(1000))]
    requires Selectable(OneOrder(user).accrued) == ["1"]
    ensures !Falls(s, 0, FactOf(s.tables.accrued[0], false)) && Falls(s, 0, FactOf(s.tables.accrued[0], true))
  {
    NothingEarned();
    hide Falls, FromString, ResponseOrder, StoredAmount, Selectable, Watching.Reachable, Echoing, K.Calm, Apply,
      Enabled;
    var f, g := FactOf(s.tables.accrued[0], false), FactOf(s.tables.accrued[0], true);
    IdleIsNotDone(s.pipe);
    OneOrderIsValid(user);
    assert !Waiting(s, "1");
    assert !Underway(s, f);
    assert Effective(EARNED_NOTHING, g);
    assert Underway(s, g);
    FinalStandsExactly(P.Config(1, 1, 1), OneOrder(user), s, 0, false);
    FinalStandsExactly(P.Config(1, 1, 1), OneOrder(user), s, 0, true);
  }

  lemma OneOrderIsValid(user: string)
    ensures Valid(OneOrder(user))
  {
    assert !Blank("1") by { assert "1"[0] != ' '; }
  }

  lemma NothingEarned()
    ensures RealStatus("PROCESSED") == Processed
    ensures StoredAmount(ResponseOrder(EARNED_NOTHING).amount) == None
  {
    EmptyIsNoAmount();
    ZeroIsNull();
  }

  lemma TenRoubles()
    ensures FromString("10") == Ok(Amount(10, 0)) && StoredAmount(Amount(10, 0)) == Some(1000)
    ensures StoredAmount(ResponseOrder(EARNED).amount) == Some(1000)
  {
    FormatParses(10);
    DigitsOfTen();
    SplitOne("10");
    assert NewAmount(10, 0) == Amount(10, 0);
  }

  lemma DigitsOfTen()
    ensures FormatInt(10) == "10"
  {
    assert Digits(1) == "1" && Digits(10) == "10";
  }
}
