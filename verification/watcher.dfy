/** The watcher, the pipeline and the accrual table together: orders are selected, dispatched to workers, and stamped
    with what comes back. */
module Watching {
  import opened Results
  import opened Amounts
  import opened Errors
  import opened Tables
  import opened OrderRepo
  import opened Workers
  import P = Pipeline
  import J = PipelineJobs
  import T = PipelineTheorems

  /** The order status that a response status stands for; an unknown one leaves it empty. */
  function RealStatus(status: string): Status {
    if status in {"AGENT_FAILED", "CALCULATOR_FAILED", "PROCESSING", "REGISTERED"} then Processing
    else if status == "INVALID" then Invalid
    else if status in {"PROCESSED", "NO_CONTENT"} then Processed
    else Unset
  }

  /** The update made for a response; an amount that does not parse is logged and counts as zero. */
  function ResponseOrder(info: Info): Order {
    var amount := match FromString(info.accrual) case Ok(a) => a case Err(_) => ZERO;
    Order(info.order, "", RealStatus(info.status), TypeAccrual, amount)
  }

  /** The update made for an order that has just been dispatched. */
  function DispatchedOrder(name: string): Order {
    Order(name, "", Processing, TypeAccrual, ZERO)
  }

  // ---------------------------------------------------------------- what a response says

  /** The response status stands for the order status. */
  predicate Says(status: string, info: Status) {
    match info
    case Processing =>
      status == "REGISTERED" || status == "PROCESSING" || status == "CALCULATOR_FAILED" || status == "AGENT_FAILED"
    case Invalid => status == "INVALID"
    case Processed => status == "PROCESSED" || status == "NO_CONTENT"
    case _ => false
  }

  /** The points of a response, in kopecks; an amount that cannot be read is no points. */
  function Earned(accrual: string): int {
    match FromString(accrual)
    case Ok(a) => a.TotalKopecks()
    case Err(_) => 0
  }

  /** The status is one of the seven known ones, and the points fit the column. */
  ghost predicate Storable(info: Info) {
    (exists status :: Says(info.status, status)) && 0 <= Earned(info.accrual) < 1_000_000_000_000
  }

  /** The row now has the status that the response stands for and the points of the response, NULL for none. */
  predicate HoldsResponse(before: AccrualRow, after: AccrualRow, info: Info) {
    && after.user == before.user && after.name == before.name && Says(info.status, after.info)
    && after.amount == if Earned(info.accrual) == 0 then None else Some(Earned(info.accrual))
  }

  lemma StatusSays(status: string)
    ensures RealStatus(status) != Unset ==> Says(status, RealStatus(status))
    ensures forall info :: Says(status, info) ==> RealStatus(status) == info
  {
  }

  lemma RowOfResponse(r: AccrualRow, info: Info, runs: bool)
    ensures var after := RowAfter(r, ResponseOrder(info), runs);
            if runs && r.name == info.order && Storable(info) then HoldsResponse(r, after, info) else after == r
  {
    StatusSays(info.status);
    assert ZERO.TotalKopecks() == 0;
    hide FromString, RealStatus, Amount.TotalKopecks;
  }

  /** The storing of a response, with its retries, on the rows: the order it names gets what it says if some attempt
      runs and the response can be stored; nothing else is touched, and nothing at all otherwise. */
  lemma ResponseOnRows(t: Tables, info: Info, weather: nat -> Reply)
    ensures var t' := UpdateFrom(t, ResponseOrder(info), weather, 0).0;
            && t' == t.(accrued := t'.accrued) && |t'.accrued| == |t.accrued|
            && forall i :: 0 <= i < |t.accrued| ==>
                 if Lands(weather, 0) && t.accrued[i].name == info.order && Storable(info)
                 then HoldsResponse(t.accrued[i], t'.accrued[i], info)
                 else t'.accrued[i] == t.accrued[i]
  {
    hide UpdateFrom, ResponseOrder, RowAfter, Storable, HoldsResponse, Lands;
    UpdateOnRows(t, ResponseOrder(info), weather);
    forall i | 0 <= i < |t.accrued|
      ensures if Lands(weather, 0) && t.accrued[i].name == info.order && Storable(info)
              then HoldsResponse(t.accrued[i], UpdateFrom(t, ResponseOrder(info), weather, 0).0.accrued[i], info)
              else UpdateFrom(t, ResponseOrder(info), weather, 0).0.accrued[i] == t.accrued[i]
    {
      RowOfResponse(t.accrued[i], info, Lands(weather, 0));
    }
  }

  /** The points of an unsigned decimal are the kopecks it spells. */
  lemma EarnedDecimal(accrual: string, r: string, k: string)
    requires Spelled(accrual, r, k) && (k == "" || IsDigits(k)) && r[0] != '-'
    requires DecimalKopecks(r, k) < 1_000_000_000_000
    ensures Earned(accrual) == DecimalKopecks(r, k)
  {
    assert DecimalKopecks(r, k) >= 0;
    hide FromString, DecimalKopecks;
    DecimalValue(accrual, r, k);
  }

  /** Storing a response moves the accruals of the order's owner by the points of the response less what the order
      held, and nobody else's. */
  lemma PointsArrive(t: Tables, info: Info, weather: nat -> Reply, i: nat, user: string)
    requires UniqueNames(t.accrued) && i < |t.accrued| && t.accrued[i].name == info.order
    requires Storable(info) && Lands(weather, 0)
    ensures var t' := UpdateFrom(t, ResponseOrder(info), weather, 0).0;
            Accrued(t', user) == Accrued(t, user)
              + if t.accrued[i].user == user then Earned(info.accrual) - AmountOr0(t.accrued[i]) else 0
  {
    RowOfResponse(t.accrued[i], info, true);
    AccruedMoves(t, ResponseOrder(info), weather, i, user);
    hide UpdateFrom, RowAfter, Storable, Lands, Earned;
  }

  lemma EmptyEarnsNothing()
    ensures Earned("") == 0
  {
    assert Split("") == [""];
    assert !IsDigits(Unsigned(""));
  }

  /** What a worker's outcome says of its job when the client has sent no data: processed without points for "no
      content", still in progress for a refusal, a failure or a 429. */
  lemma OutcomeSays(job: string, outcome: Outcome)
    ensures var info := InfoOf(job, outcome);
            if outcome.Answered? && outcome.answer.Data? then info == outcome.answer.info
            else && info.order == job && Storable(info) && Earned(info.accrual) == 0
                 && Says(info.status, if outcome.Answered? && outcome.answer.NoContent? then Processed else Processing)
  {
    EmptyEarnsNothing();
    hide Earned;
    var info := InfoOf(job, outcome);
    if !(outcome.Answered? && outcome.answer.Data?) {
      assert Says(info.status, if outcome.Answered? && outcome.answer.NoContent? then Processed else Processing);
    }
  }

  // ---------------------------------------------------------------- the branches of the watcher's loop, run alone

  /** A row after some of `orders` have been set to PROCESSING: as it was, or stamped, its amount gone to NULL. */
  predicate Marked(before: AccrualRow, after: AccrualRow, orders: seq<string>) {
    after == before || (before.name in orders && after == before.(info := Processing, amount := None))
  }

  /** The dispatch of one selection: every order is sent in turn and then set to PROCESSING, a failing update being
      logged and passed over. `weather(i)` is what the updates of the i-th order meet. */
  method DispatchAll(repo: OrderRepository, orders: seq<string>, weather: nat -> nat -> Reply)
    returns (sent: seq<string>)
    modifies repo.pool
    ensures sent == orders
    ensures repo.pool.withdrawn == old(repo.pool.withdrawn) && |repo.pool.accrued| == old(|repo.pool.accrued|)
    ensures forall r :: 0 <= r < |repo.pool.accrued| ==> Marked(old(repo.pool.accrued)[r], repo.pool.accrued[r], orders)
    ensures (forall i, c :: weather(i)(c) == Delivered) ==>
              forall r :: 0 <= r < |repo.pool.accrued| && repo.pool.accrued[r].name in orders ==>
                repo.pool.accrued[r].info == Processing
  {
    sent := [];
    ghost var rows := repo.pool.accrued;
    for i := 0 to |orders|
      invariant sent == orders[..i]
      invariant repo.pool.withdrawn == old(repo.pool.withdrawn) && |repo.pool.accrued| == |rows|
      invariant forall r :: 0 <= r < |rows| ==> Marked(rows[r], repo.pool.accrued[r], orders[..i])
      invariant (forall i, c :: weather(i)(c) == Delivered) ==>
                  forall r :: 0 <= r < |rows| && rows[r].name in orders[..i] ==> repo.pool.accrued[r].info == Processing
    {
      var o := DispatchedOrder(orders[i]);
      ghost var before := repo.pool.Contents();
      sent := sent + [orders[i]];
      var updated := repo.UpdateAccrualStatus(o, weather(i));
      MarkOnce(before, orders[i], weather(i));
      assert orders[..i + 1] == orders[..i] + [orders[i]];
    }
  }

  lemma MarkOnce(t: Tables, name: string, weather: nat -> Reply)
    ensures var t' := UpdateFrom(t, DispatchedOrder(name), weather, 0).0;
            && t'.withdrawn == t.withdrawn && |t'.accrued| == |t.accrued|
            && (forall r :: 0 <= r < |t.accrued| ==> Marked(t.accrued[r], t'.accrued[r], [name]))
            && (weather(0) == Delivered ==> forall r :: 0 <= r < |t.accrued| && t.accrued[r].name == name ==>
                                              t'.accrued[r].info == Processing)
  {
    var o := DispatchedOrder(name);
    UpdateOnce(t, o, weather, 0);
    ZeroIsNull();
    if weather(0) == Delivered {
      assert UpdateAttempt(t, o, weather(0)).1.Err? ==> !HasName(t.accrued, name);
    }
  }

  /** The storing of one response: the order it names is stamped with its status and amount exactly when the order
      exists, the status is a known one, the amount fits, and some attempt runs. */
  method StoreResponse(repo: OrderRepository, info: Info, weather: nat -> Reply)
    modifies repo.pool
    ensures repo.pool.Contents() ==
            if Acceptable(old(repo.pool.Contents()), ResponseOrder(info)) && Lands(weather, 0)
            then Updated(old(repo.pool.Contents()), ResponseOrder(info))
            else old(repo.pool.Contents())
    ensures |repo.pool.accrued| == old(|repo.pool.accrued|)
    ensures forall i :: 0 <= i < |repo.pool.accrued| ==>
              if Lands(weather, 0) && old(repo.pool.accrued)[i].name == info.order && Storable(info)
              then HoldsResponse(old(repo.pool.accrued)[i], repo.pool.accrued[i], info)
              else repo.pool.accrued[i] == old(repo.pool.accrued)[i]
  {
    ghost var before := repo.pool.Contents();
    var stored := repo.UpdateAccrualStatus(ResponseOrder(info), weather);
    UpdateExactly(before, ResponseOrder(info), weather, 0);
    hide Acceptable, Updated, ResponseOrder, Storable, HoldsResponse, Lands, UpdateFrom, RowAfter;
    ResponseOnRows(before, info, weather);
  }

  // ---------------------------------------------------------------- everything together

  /** A selection goroutine: the rows its query saw, the orders it goes through, how many it is done with, and the
      attempt number of the status update it is making for the order it has just dispatched. */
  datatype Selection = Selection(seen: seq<AccrualRow>, queue: seq<string>, next: nat, marking: Option<nat>)

  /** A response the watcher is storing, and the attempt number. */
  datatype Handling = Handling(info: Info, counter: nat)

  datatype Dispatch = Dispatch(order: string, selection: nat)

  /** `dispatches` and `applied` are history: orders handed to workers, and the order names of the responses whose
      storing has begun. */
  datatype System = System(pipe: P.State, tables: Tables, selections: seq<Selection>, handling: Option<Handling>,
                           dispatches: seq<Dispatch>, applied: seq<string>)

  datatype Event =
    | Pipe(e: P.Event)
    | Tick
    | Hand(k: nat, i: nat)            // selection k hands its next order to worker i
    | Mark(k: nat, reply: Reply)      // selection k tries to set PROCESSING
    | Respond(i: nat)                 // worker i hands its result to the watcher
    | Write(reply: Reply)             // the watcher tries to store the response
    | Post(user: string, name: string)

  function ResultAct(w: P.Worker): P.Act {
    if w.pc.Dropping? then P.SendRefused else P.SendResult
  }

  function InfoAt(sent: seq<P.Report>, i: nat): Info
    requires i < |sent|
  {
    InfoOf(sent[i].job, sent[i].outcome)
  }

  /** The watcher shares the agent's context: no statement runs once it is done. */
  predicate CanReply(s: System, reply: Reply) {
    s.pipe.done ==> reply.LostBefore?
  }

  predicate Enabled(s: System, e: Event) {
    match e
    case Pipe(pe) => P.Enabled(s.pipe, pe) && (pe.Step? ==> !P.HandOver(pe.act))
    case Tick => !s.pipe.done
    case Hand(k, i) =>
      && k < |s.selections| && s.selections[k].marking.None? && s.selections[k].next < |s.selections[k].queue|
      && P.Enabled(s.pipe, P.Step(i, P.Take(s.selections[k].queue[s.selections[k].next])))
    case Mark(k, reply) =>
      && k < |s.selections| && s.selections[k].marking.Some? && s.selections[k].next < |s.selections[k].queue|
      && CanReply(s, reply)
    case Respond(i) =>
      && s.handling.None? && i < |s.pipe.workers|
      && (s.pipe.workers[i].pc.Dropping? || s.pipe.workers[i].pc.Reporting?)
    case Write(reply) => s.handling.Some? && CanReply(s, reply)
    case Post(user, name) => InsertAccrual(s.tables, user, name, New).Ok?
  }

  /** The attempt that follows the attempt `counter`, if its failure is retried. */
  function NextAttempt(counter: nat, r: Result<(), Error>): Option<nat> {
    if r.Err? && Reattempts(counter, r.error) then Some(counter + 1) else None
  }

  function Apply(s: System, e: Event): System
    requires Enabled(s, e)
  {
    match e
    case Pipe(pe) => s.(pipe := P.Apply(s.pipe, pe))
    case Tick => s.(selections := s.selections + [Selection(s.tables.accrued, Selectable(s.tables.accrued), 0, None)])
    case Hand(k, i) =>
      var order := s.selections[k].queue[s.selections[k].next];
      s.(pipe := P.Apply(s.pipe, P.Step(i, P.Take(order))),
         selections := s.selections[k := s.selections[k].(marking := Some(0))],
         dispatches := s.dispatches + [Dispatch(order, k)])
    case Mark(k, reply) =>
      var c := s.selections[k];
      var (t, r) := UpdateAttempt(s.tables, DispatchedOrder(c.queue[c.next]), reply);
      var again := NextAttempt(c.marking.value, r);
      s.(tables := t,
         selections := s.selections[k := c.(marking := again, next := if again.Some? then c.next else c.next + 1)])
    case Respond(i) =>
      var pipe := P.Apply(s.pipe, P.Step(i, ResultAct(s.pipe.workers[i])));
      s.(pipe := pipe, handling := Some(Handling(InfoAt(pipe.past.sent, |pipe.past.sent| - 1), 0)))
    case Write(reply) =>
      var h := s.handling.value;
      var (t, r) := UpdateAttempt(s.tables, ResponseOrder(h.info), reply);
      var again := NextAttempt(h.counter, r);
      s.(tables := t, handling := if again.Some? then Some(Handling(h.info, again.value)) else None,
         applied := if h.counter == 0 then s.applied + [h.info.order] else s.applied)
    case Post(user, name) =>
      s.(tables := InsertAccrual(s.tables, user, name, New).value)
  }

  function Init(cfg: P.Config, t: Tables): System {
    System(P.Init(cfg), t, [], None, [], [])
  }

  function Run(s: System, es: seq<Event>): Option<System>
    decreases |es|
  {
    if es == [] then Some(s)
    else if Enabled(s, es[0]) then Run(Apply(s, es[0]), es[1..])
    else None
  }

  ghost predicate Reachable(cfg: P.Config, t: Tables, s: System) {
    exists es :: Run(Init(cfg, t), es) == Some(s)
  }

  // ---------------------------------------------------------------- provenance

  predicate IsSelectable(r: AccrualRow) {
    r.info in {New, Processing}
  }

  /** The selection saw the order, and saw it NEW or PROCESSING. */
  predicate Saw(c: Selection, order: string) {
    exists r :: 0 <= r < |c.seen| && c.seen[r].name == order && IsSelectable(c.seen[r])
  }

  function Orders(ds: seq<Dispatch>): seq<string> {
    seq(|ds|, i requires 0 <= i < |ds| => ds[i].order)
  }

  function ResponseOrders(sent: seq<P.Report>): seq<string> {
    seq(|sent|, i requires 0 <= i < |sent| => InfoAt(sent, i).order)
  }

  /** Responses received whose storing has not begun. */
  function Pending(s: System): nat {
    if s.handling.Some? && s.handling.value.counter == 0 then 1 else 0
  }

  /** Responses are stored in the order they come, each once begun before the next is received. */
  ghost predicate Receiving(s: System) {
    && s.applied <= ResponseOrders(s.pipe.past.sent)
    && |s.applied| + Pending(s) == |s.pipe.past.sent|
    && (s.handling.Some? ==>
          |s.pipe.past.sent| > 0 && s.handling.value.info == InfoAt(s.pipe.past.sent, |s.pipe.past.sent| - 1))
  }

  ghost predicate Dispatching(s: System) {
    && s.pipe.past.taken == Orders(s.dispatches)
    && (forall k :: 0 <= k < |s.selections| ==> s.selections[k].queue == Selectable(s.selections[k].seen))
    && (forall d :: 0 <= d < |s.dispatches| ==>
          s.dispatches[d].selection < |s.selections|
            && Saw(s.selections[s.dispatches[d].selection], s.dispatches[d].order))
  }

  /** Only the hand-overs touch what was taken and what was sent. */
  lemma PipeHistories(p: P.State, e: P.Event)
    requires P.Enabled(p, e)
    ensures var (past, past') := (p.past, P.Apply(p, e).past);
            if e.Step? && e.act.Take? then past'.taken == past.taken + [e.act.job] && past'.sent == past.sent
            else if e.Step? && P.HandOver(e.act) then
              past'.taken == past.taken && past.sent <= past'.sent && |past'.sent| == |past.sent| + 1
            else past'.taken == past.taken && past'.sent == past.sent
  {
  }

  lemma EventKeepsPipe(s: System, e: Event)
    requires T.Inv(s.pipe) && Enabled(s, e)
    ensures T.Inv(Apply(s, e).pipe)
  {
    hide T.Inv, P.Apply, UpdateAttempt, InsertAccrual, Selectable;
    match e {
      case Pipe(pe) => T.EventKeeps(s.pipe, pe);
      case Hand(k, i) => T.EventKeeps(s.pipe, P.Step(i, P.Take(s.selections[k].queue[s.selections[k].next])));
      case Respond(i) => T.EventKeeps(s.pipe, P.Step(i, ResultAct(s.pipe.workers[i])));
      case _ =>
    }
  }

  lemma EventKeepsReceiving(s: System, e: Event)
    requires Receiving(s) && Enabled(s, e)
    ensures Receiving(Apply(s, e))
  {
    hide P.Apply, UpdateAttempt, InsertAccrual, Selectable, InfoOf, RealStatus;
    match e {
      case Pipe(pe) => PipeHistories(s.pipe, pe);
      case Hand(k, i) => PipeHistories(s.pipe, P.Step(i, P.Take(s.selections[k].queue[s.selections[k].next])));
      case Respond(i) => PipeHistories(s.pipe, P.Step(i, ResultAct(s.pipe.workers[i])));
      case _ =>
    }
  }

  lemma SelectedWasSeen(c: Selection, i: nat)
    requires c.queue == Selectable(c.seen) && i < |c.queue|
    ensures Saw(c, c.queue[i])
  {
    SelectableExactly(c.seen);
    assert c.queue[i] in Selectable(c.seen);
  }

  lemma EventKeepsDispatching(s: System, e: Event)
    requires Dispatching(s) && Enabled(s, e)
    ensures Dispatching(Apply(s, e))
  {
    hide P.Apply, UpdateAttempt, InsertAccrual, Selectable, InfoOf, RealStatus;
    var s' := Apply(s, e);
    match e {
      case Pipe(pe) => PipeHistories(s.pipe, pe);
      case Hand(k, i) =>
        var c := s.selections[k];
        PipeHistories(s.pipe, P.Step(i, P.Take(c.queue[c.next])));
        SelectedWasSeen(c, c.next);
        assert Orders(s'.dispatches) == Orders(s.dispatches) + [c.queue[c.next]];
      case Respond(i) => PipeHistories(s.pipe, P.Step(i, ResultAct(s.pipe.workers[i])));
      case _ =>
    }
    forall d | 0 <= d < |s'.dispatches|
      ensures && s'.dispatches[d].selection < |s'.selections|
              && Saw(s'.selections[s'.dispatches[d].selection], s'.dispatches[d].order)
    {
      assert d < |s.dispatches| ==> s'.dispatches[d] == s.dispatches[d];
    }
  }

  lemma {:induction false} RunKeeps(s: System, es: seq<Event>)
    requires T.Inv(s.pipe) && Receiving(s) && Dispatching(s) && Run(s, es).Some?
    ensures var s' := Run(s, es).value; T.Inv(s'.pipe) && Receiving(s') && Dispatching(s')
    decreases |es|
  {
    hide T.Inv, Receiving, Dispatching, Enabled, Apply;
    if es != [] {
      EventKeepsPipe(s, es[0]);
      EventKeepsReceiving(s, es[0]);
      EventKeepsDispatching(s, es[0]);
      RunKeeps(Apply(s, es[0]), es[1..]);
    }
  }

  lemma ReachableInv(cfg: P.Config, t: Tables, s: System)
    requires Reachable(cfg, t, s)
    ensures T.Inv(s.pipe) && Receiving(s) && Dispatching(s)
  {
    hide T.Inv, Run;
    var es :| Run(Init(cfg, t), es) == Some(s);
    T.InitInv(cfg);
    assert ResponseOrders([]) == [] && Orders([]) == [];
    RunKeeps(Init(cfg, t), es);
  }

  /** The client answers for the order it was asked about. */
  ghost predicate Echoes(s: System) {
    forall i :: 0 <= i < |s.pipe.past.sent| ==> InfoAt(s.pipe.past.sent, i).order == s.pipe.past.sent[i].job
  }

  /** Provenance: if the client echoes the order number, an order is stamped by at most as many responses as it was
      dispatched, and every dispatch goes back to a selection that saw the order NEW or PROCESSING. */
  lemma Provenance(cfg: P.Config, t: Tables, s: System, order: string)
    requires Reachable(cfg, t, s) && Echoes(s)
    ensures multiset(s.applied)[order] <= multiset(Orders(s.dispatches))[order]
    ensures forall d :: 0 <= d < |s.dispatches| ==>
              && s.dispatches[d].selection < |s.selections|
              && Saw(s.selections[s.dispatches[d].selection], s.dispatches[d].order)
  {
    hide T.Inv, InfoAt;
    ReachableInv(cfg, t, s);
    var sent := s.pipe.past.sent;
    assert ResponseOrders(sent) == P.Jobs(sent);
    PrefixCount(s.applied, P.Jobs(sent), order);
    JobsAreConserved(s.pipe, order);
  }

  lemma PrefixCount<T>(a: seq<T>, b: seq<T>, x: T)
    requires a <= b
    ensures multiset(a)[x] <= multiset(b)[x]
  {
    assert b == a + b[|a|..];
  }

  lemma JobsAreConserved(p: P.State, order: string)
    requires T.Inv(p)
    ensures multiset(P.Jobs(p.past.sent))[order] <= multiset(p.past.taken)[order]
  {
    assert J.Conserved(p);
  }

  // ---------------------------------------------------------------- lifecycle

  /** The event stores a response about the order `name` whose status is one of `statuses`. */
  predicate Stores(s: System, e: Event, name: string, statuses: set<string>) {
    e.Write? && s.handling.Some? && s.handling.value.info.order == name && s.handling.value.info.status in statuses
  }

  /** What one event does to a row. It keeps its name and owner and does not become NEW again; it leaves the selectable
      set only for a response PROCESSED, NO_CONTENT or INVALID about this very order. A statement that runs does what it
      is for: a mark of the order leaves it PROCESSING with a NULL amount, a response about it leaves what it says. No
      other event touches the row. */
  ghost predicate RowMoves(s: System, e: Event, before: AccrualRow, after: AccrualRow)
    requires Enabled(s, e)
  {
    && after.name == before.name && after.user == before.user
    && (before.info != New ==> after.info != New)
    && (IsSelectable(before) && !IsSelectable(after) ==>
          Stores(s, e, before.name, {"PROCESSED", "NO_CONTENT", "INVALID"}))
    && match e
       case Mark(k, reply) =>
         if !reply.LostBefore? && s.selections[k].queue[s.selections[k].next] == before.name
         then after == before.(info := Processing, amount := None)
         else after == before
       case Write(reply) =>
         var info := s.handling.value.info;
         if !reply.LostBefore? && info.order == before.name && Storable(info)
         then HoldsResponse(before, after, info)
         else after == before
       case _ => after == before
  }

  /** One attempt at an update, on one row. */
  lemma AttemptOnRow(t: Tables, o: Order, reply: Reply, r: nat)
    requires r < |t.accrued|
    ensures var t' := UpdateAttempt(t, o, reply).0;
            |t'.accrued| == |t.accrued| && t'.accrued[r] == RowAfter(t.accrued[r], o, !reply.LostBefore?)
  {
    hide Amount.TotalKopecks, Amount.ToPGNumeric, UpdateAttempt;
    StoredIsTotal(o.amount);
    UpdateIsUnconditional(t, o, reply, r);
    hide StoredAmount;
  }

  lemma Lifecycle(s: System, e: Event, r: nat)
    requires Enabled(s, e) && r < |s.tables.accrued|
    ensures var rows := Apply(s, e).tables.accrued;
            |s.tables.accrued| <= |rows| && RowMoves(s, e, s.tables.accrued[r], rows[r])
  {
    hide P.Apply, UpdateAttempt, ResponseOrder, Storable, Earned, RowAfter;
    match e {
      case Mark(k, reply) => MarkOnRow(s, k, reply, r);
      case Write(reply) =>
        AttemptOnRow(s.tables, ResponseOrder(s.handling.value.info), reply, r);
        RowOfResponse(s.tables.accrued[r], s.handling.value.info, !reply.LostBefore?);
      case _ =>
    }
  }

  lemma MarkOnRow(s: System, k: nat, reply: Reply, r: nat)
    requires Enabled(s, Mark(k, reply)) && r < |s.tables.accrued|
    ensures var (row, rows) := (s.tables.accrued[r], Apply(s, Mark(k, reply)).tables.accrued);
            && |rows| == |s.tables.accrued|
            && rows[r] == if !reply.LostBefore? && s.selections[k].queue[s.selections[k].next] == row.name
                          then row.(info := Processing, amount := None)
                          else row
  {
    hide UpdateAttempt;
    AttemptOnRow(s.tables, DispatchedOrder(s.selections[k].queue[s.selections[k].next]), reply, r);
    assert ZERO.TotalKopecks() == 0;
  }

  lemma ZeroIsNull()
    ensures StoredAmount(ZERO) == None
  {
    assert ZERO.TotalKopecks() == 0;
  }

  /** Over any run, no order disappears, changes hands, or goes back to NEW. */
  lemma {:induction false} NeverNewAgain(s: System, es: seq<Event>, r: nat)
    requires Run(s, es).Some? && r < |s.tables.accrued|
    ensures var rows := Run(s, es).value.tables.accrued;
            && |s.tables.accrued| <= |rows|
            && rows[r].name == s.tables.accrued[r].name && rows[r].user == s.tables.accrued[r].user
            && (s.tables.accrued[r].info != New ==> rows[r].info != New)
    decreases |es|
  {
    hide Enabled, Apply;
    if es != [] {
      Lifecycle(s, es[0], r);
      NeverNewAgain(Apply(s, es[0]), es[1..], r);
    }
  }
}
