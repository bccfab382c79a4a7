/** The selections keep their turns: every order in its place, every update at most four times. */
module WatchingTurns {
  import opened Results
  import opened Errors
  import opened Tables
  import opened OrderRepo
  import opened Workers
  import P = Pipeline
  import T = PipelineTheorems
  import opened Watching

  /** The orders that selection `k` has dispatched, in turn. */
  function DispatchedBy(ds: seq<Dispatch>, k: nat): seq<string> {
    if ds == [] then []
    else DispatchedBy(ds[..|ds| - 1], k) + if ds[|ds| - 1].selection == k then [ds[|ds| - 1].order] else []
  }

  /** How many of its orders a selection has handed over: those it is done with, and the one it is marking. */
  function HandedOver(c: Selection): nat {
    c.next + if c.marking.Some? then 1 else 0
  }

  predicate InTurn(c: Selection, handed: seq<string>) {
    && HandedOver(c) <= |c.queue| && handed == c.queue[..HandedOver(c)]
    && (c.marking.Some? ==> c.marking.value <= 3)
  }

  ghost predicate Turns(s: System) {
    && (forall k :: 0 <= k < |s.selections| ==> InTurn(s.selections[k], DispatchedBy(s.dispatches, k)))
    && (forall d :: 0 <= d < |s.dispatches| ==> s.dispatches[d].selection < |s.selections|)
    && (s.handling.Some? ==> s.handling.value.counter <= 3)
  }

  lemma OneMore(ds: seq<Dispatch>, d: Dispatch, k: nat)
    ensures DispatchedBy(ds + [d], k) == DispatchedBy(ds, k) + if d.selection == k then [d.order] else []
  {
    assert (ds + [d])[..|ds|] == ds;
  }

  lemma {:induction false} NoneYet(ds: seq<Dispatch>, k: nat)
    requires forall d :: 0 <= d < |ds| ==> ds[d].selection < k
    ensures DispatchedBy(ds, k) == []
  {
    if ds != [] {
      NoneYet(ds[..|ds| - 1], k);
    }
  }

  /** After an attempt whose connection fails there is another, up to the fourth; after any other there is none. */
  lemma AttemptsGoOn(counter: nat, r: Result<(), Error>)
    ensures NextAttempt(counter, r) ==
            if r.Err? && IsTransient(r.error) && counter < 3 then Some(counter + 1) else None
  {
    if r.Err? {
      TransientIsRetryable(r.error);
    }
  }

  lemma EventKeepsTurns(s: System, e: Event)
    requires Turns(s) && Enabled(s, e)
    ensures Turns(Apply(s, e))
  {
    hide P.Apply, P.Enabled, UpdateAttempt, InsertAccrual, Selectable, InfoOf, RealStatus, NextAttempt, DispatchedBy;
    match e {
      case Tick => NoneYet(s.dispatches, |s.selections|);
      case Hand(k, i) => HandKeepsTurns(s, k, i);
      case Mark(k, reply) =>
        var c := s.selections[k];
        AttemptsGoOn(c.marking.value, UpdateAttempt(s.tables, DispatchedOrder(c.queue[c.next]), reply).1);
      case Write(reply) =>
        var h := s.handling.value;
        AttemptsGoOn(h.counter, UpdateAttempt(s.tables, ResponseOrder(h.info), reply).1);
      case _ =>
    }
  }

  lemma HandKeepsTurns(s: System, k: nat, i: nat)
    requires Turns(s) && Enabled(s, Hand(k, i))
    ensures Turns(Apply(s, Hand(k, i)))
  {
    hide P.Apply, P.Enabled, DispatchedBy;
    var c, s' := s.selections[k], Apply(s, Hand(k, i));
    forall j | 0 <= j < |s'.selections| ensures InTurn(s'.selections[j], DispatchedBy(s'.dispatches, j)) {
      OneMore(s.dispatches, Dispatch(c.queue[c.next], k), j);
    }
  }

  lemma {:induction false} RunKeepsTurns(s: System, es: seq<Event>)
    requires Turns(s) && Run(s, es).Some?
    ensures Turns(Run(s, es).value)
    decreases |es|
  {
    hide Turns, Enabled, Apply;
    if es != [] {
      EventKeepsTurns(s, es[0]);
      RunKeepsTurns(Apply(s, es[0]), es[1..]);
    }
  }

  /** In every reachable state, what a selection has handed over is, in order and without a gap, the start of the list
      of orders that were NEW or PROCESSING when it looked; and no update is ever at more than its fourth attempt. */
  lemma DispatchedInTurn(cfg: P.Config, t: Tables, s: System, k: nat)
    requires Reachable(cfg, t, s) && k < |s.selections|
    ensures var c := s.selections[k];
            && c.queue == Selectable(c.seen) && HandedOver(c) <= |c.queue|
            && DispatchedBy(s.dispatches, k) == c.queue[..HandedOver(c)]
            && (c.marking.Some? ==> c.marking.value <= 3)
    ensures s.handling.Some? ==> s.handling.value.counter <= 3
  {
    hide Run, T.Inv, Selectable, DispatchedBy;
    ReachableInv(cfg, t, s);
    var es :| Run(Init(cfg, t), es) == Some(s);
    RunKeepsTurns(Init(cfg, t), es);
  }

  /** An update of the watcher is repeated exactly when its connection has failed and it was not the fourth attempt: the
      selection then stays at the order, and otherwise goes on to the next. */
  lemma MarkGoesOn(s: System, k: nat, reply: Reply)
    requires Enabled(s, Mark(k, reply))
    ensures var (c, c') := (s.selections[k], Apply(s, Mark(k, reply)).selections[k]);
            && c'.queue == c.queue
            && if !reply.Delivered? && IsTransient(reply.e) && c.marking.value < 3
               then c'.next == c.next && c'.marking == Some(c.marking.value + 1)
               else c'.next == c.next + 1 && c'.marking == None
  {
    hide NextAttempt, UpdateAttempt;
    var c := s.selections[k];
    var r := UpdateAttempt(s.tables, DispatchedOrder(c.queue[c.next]), reply).1;
    UpdateAttemptExactly(s.tables, DispatchedOrder(c.queue[c.next]), reply);
    if r.Err? {
      TransientIsRetryable(r.error);
    }
    AttemptsGoOn(c.marking.value, r);
  }

  /** And so for the storing of a response, after which the watcher is free for the next. */
  lemma WriteGoesOn(s: System, reply: Reply)
    requires Enabled(s, Write(reply))
    ensures var (h, h') := (s.handling.value, Apply(s, Write(reply)).handling);
            if !reply.Delivered? && IsTransient(reply.e) && h.counter < 3
            then h' == Some(Handling(h.info, h.counter + 1))
            else h' == None
  {
    hide NextAttempt, UpdateAttempt, ResponseOrder;
    var h := s.handling.value;
    var r := UpdateAttempt(s.tables, ResponseOrder(h.info), reply).1;
    UpdateAttemptExactly(s.tables, ResponseOrder(h.info), reply);
    if r.Err? {
      TransientIsRetryable(r.error);
    }
    AttemptsGoOn(h.counter, r);
  }

  /** A posted order goes in as NEW with no points, and the next selection has it, as it has every order in progress. */
  lemma PostedIsSelected(s: System, user: string, name: string)
    requires Enabled(s, Post(user, name)) && !s.pipe.done
    ensures var s1 := Apply(s, Post(user, name));
            && s1 == s.(tables := Tables(s.tables.users, s.tables.accrued + [Row(user, name, New, Some(0))],
                                         s.tables.withdrawn))
            && Enabled(s1, Tick)
            && var s2 := Apply(s1, Tick);
               |s2.selections| == |s.selections| + 1 && name in s2.selections[|s.selections|].queue
  {
    hide Selectable;
    AccrualAccepted(s.tables, user, name, New);
    var rows := Apply(s, Post(user, name)).tables.accrued;
    SelectableExactly(rows);
    assert rows[|rows| - 1].name == name && rows[|rows| - 1].info == New;
  }

  // ---------------------------------------------------------------- after the context is done

  lemma DoneEvent(s: System, e: Event)
    requires s.pipe.done && Enabled(s, e)
    ensures var s' := Apply(s, e);
            && s'.pipe.done && |s'.selections| == |s.selections| && s'.tables.withdrawn == s.tables.withdrawn
            && |s.tables.accrued| <= |s'.tables.accrued| && s'.tables.accrued[..|s.tables.accrued|] == s.tables.accrued
            && (!e.Post? ==> s'.tables == s.tables)
  {
    hide ResponseOrder, DispatchedOrder, NextAttempt, Selectable, InfoOf, P.Apply, P.RoutineEnabled, P.AgentEnabled;
    if e.Pipe? {
      DoneIsKept(s.pipe, e.e);
    } else if e.Hand? {
      DoneIsKept(s.pipe, P.Step(e.i, P.Take(s.selections[e.k].queue[s.selections[e.k].next])));
    } else if e.Respond? {
      DoneIsKept(s.pipe, P.Step(e.i, ResultAct(s.pipe.workers[e.i])));
    }
  }

  lemma DoneIsKept(p: P.State, e: P.Event)
    requires p.done && P.Enabled(p, e)
    ensures P.Apply(p, e).done
  {
    hide P.RoutineStep, P.NextWorker, P.PoolAfter, P.AgentAfter, P.PastAfter, P.ClosedAfter, P.RoutineEnabled;
  }

  /** Once the context is done, the watcher changes no row and begins no selection, over any run: whatever is still on
      its way is lost, and the table grows by newly posted orders alone. */
  lemma {:induction false} NothingStoredAfterDone(s: System, es: seq<Event>)
    requires s.pipe.done && Run(s, es).Some?
    ensures var s' := Run(s, es).value;
            && |s'.selections| == |s.selections| && s'.tables.withdrawn == s.tables.withdrawn
            && |s.tables.accrued| <= |s'.tables.accrued| && s'.tables.accrued[..|s.tables.accrued|] == s.tables.accrued
    decreases |es|
  {
    hide Enabled, Apply;
    if es != [] {
      DoneEvent(s, es[0]);
      NothingStoredAfterDone(Apply(s, es[0]), es[1..]);
    }
  }
}
