/** Sessions against the requests they stand for: a session left alone does what its request does, in one piece. */
module LedgerSolo {
  import opened Results
  import opened Amounts
  import opened Errors
  import opened Tables
  import opened OrderRepo
  import opened Handlers
  import opened Ledger

  /** The event is an action of session `i`. */
  predicate IsOf(e: Event, i: nat) {
    match e
    case Arrive(_) => false
    case Update(_, _, _) => false
    case _ => e.i == i
  }

  ghost predicate Drives(es: seq<Event>, s: Ledger, s': Ledger, i: nat) {
    Run(s, es) == Some(s') && forall k :: 0 <= k < |es| ==> IsOf(es[k], i)
  }

  /** Session `i` alone can take the ledger from `s` to `s'`. */
  ghost predicate Alone(s: Ledger, s': Ledger, i: nat) {
    exists es :: Drives(es, s, s', i)
  }

  lemma AloneNothing(s: Ledger, i: nat)
    ensures Alone(s, s, i)
  {
    assert Drives([], s, s, i);
  }

  lemma AloneOn(s: Ledger, s': Ledger, i: nat, e: Event)
    requires Alone(s, s', i) && Enabled(s', e) && IsOf(e, i)
    ensures Alone(s, Apply(s', e), i)
  {
    hide Run, Enabled, Apply, IsOf;
    var es :| Drives(es, s, s', i);
    RunThen(s, es, e);
    assert Drives(es + [e], s, Apply(s', e), i);
  }

  /** `s'` is `s` with session `i` at `pc` and the tables at `t`; nobody is on record as having overlapped by it. */
  ghost predicate Ends(s: Ledger, s': Ledger, i: nat, pc: Pc, t: Tables) {
    && i < |s.sessions| && s'.sessions == s.sessions[i := s.sessions[i].(pc := pc)] && s'.tables == t
    && s'.base == s.base && s'.shrunk == s.shrunk && s'.overlapped == s.overlapped
  }

  /** The reads of one attempt, as far as they get. */
  lemma ReadsAlone(s0: Ledger, s: Ledger, i: nat, o: Order, f: Faults, c: nat) returns (s': Ledger)
    requires Alone(s0, s, i) && i < |s.sessions| && s.sessions[i] == Session(Withdraw(o), ReadingAccrued(c))
    ensures Alone(s0, s', i)
    ensures match ReadBalance(s.tables, o.user, f)
            case Err(e) => Ends(s, s', i, AfterFailure(c, e), s.tables)
            case Ok((a, w)) => Ends(s, s', i, Deciding(c, a, w, |s.tables.withdrawn|), s.tables)
  {
    hide GetAmount, SumQuery, Query, Alone, AfterFailure;
    AloneOn(s0, s, i, ReadAccrued(i, f.readAccrued));
    s' := Apply(s, ReadAccrued(i, f.readAccrued));
    if s'.sessions[i].pc.ReadingWithdrawn? && GetAmount(Query(f.readAccrued, SumQuery(s.tables.accrued, o.user))).Ok? {
      AloneOn(s0, s', i, ReadWithdrawn(i, f.readWithdrawn));
      s' := Apply(s', ReadWithdrawn(i, f.readWithdrawn));
    } else {
      NotAgain(c, GetAmount(Query(f.readAccrued, SumQuery(s.tables.accrued, o.user))));
    }
  }

  lemma NotAgain(c: nat, r: Result<Amount, Error>)
    ensures r.Err? ==> !AfterFailure(c, r.error).ReadingWithdrawn?
  {
  }

  /** The check, the insert and the commit of one attempt. */
  lemma SettlesAlone(s0: Ledger, s: Ledger, i: nat, o: Order, f: Faults, c: nat) returns (s': Ledger)
    requires Alone(s0, s, i) && i < |s.sessions| && s.sessions[i].request == Withdraw(o) && s.sessions[i].pc.Deciding?
    requires s.sessions[i].pc.counter == c && f.begin.None? && !NameHeld(s, i, o.id)
    requires ReadBalance(s.tables, o.user, f) == Ok((s.sessions[i].pc.accrued, s.sessions[i].pc.withdrawn))
    requires s.sessions[i].pc.mark == |s.tables.withdrawn|
    ensures Alone(s0, s', i)
    ensures var (t', r) := WithdrawAttempt(s.tables, o, f);
            Ends(s, s', i, if r.Ok? then Finished(Ok(())) else AfterFailure(c, r.error), t')
  {
    hide ReadBalance, Sufficient, InsertWithdrawal, Alone, Reattempts, Since, NameHeld;
    AloneOn(s0, s, i, Insert(i, f.insert));
    s' := Apply(s, Insert(i, f.insert));
    if Sufficient(s.sessions[i].pc.accrued, s.sessions[i].pc.withdrawn, o.amount) && f.insert.None?
       && InsertWithdrawal(s.tables, o.user, o.id, o.amount.ToPGNumeric()).Ok? {
      InsertedRow(s.tables, o);
      NothingSlippedIn(s.tables, o.user);
      AloneOn(s0, s', i, Commit(i, f.commit));
      s' := Apply(s', Commit(i, f.commit));
    }
  }

  lemma NothingSlippedIn(t: Tables, user: string)
    ensures Since(t, |t.withdrawn|, user) == 0
  {
    assert t.withdrawn[|t.withdrawn|..] == [];
  }

  lemma InsertedRow(t: Tables, o: Order)
    requires InsertWithdrawal(t, o.user, o.id, o.amount.ToPGNumeric()).Ok?
    ensures InsertWithdrawal(t, o.user, o.id, o.amount.ToPGNumeric()).value
      == t.(withdrawn := t.withdrawn + [OrderRow(o)])
  {
  }

  lemma AttemptsAlone(s0: Ledger, s: Ledger, i: nat, o: Order, f: Faults, c: nat) returns (s': Ledger)
    requires Alone(s0, s, i) && i < |s.sessions| && s.sessions[i] == Session(Withdraw(o), Beginning(c))
    requires !NameHeld(s, i, o.id)
    ensures Alone(s0, s', i)
    ensures var (t', r) := WithdrawAttempt(s.tables, o, f);
            Ends(s, s', i, if r.Ok? then Finished(Ok(())) else AfterFailure(c, r.error), t')
  {
    hide ReadBalance, Alone, Reattempts, Sufficient, InsertWithdrawal, Settle;
    AloneOn(s0, s, i, Begin(i, f.begin));
    s' := Apply(s, Begin(i, f.begin));
    if f.begin.None? {
      var s1 := s';
      s' := ReadsAlone(s0, s1, i, o, f, c);
      if ReadBalance(s.tables, o.user, f).Ok? {
        assert forall j :: 0 <= j < |s.sessions| && j != i ==> s'.sessions[j] == s.sessions[j];
        s' := SettlesAlone(s0, s', i, o, f, c);
      }
    }
  }

  /** A withdrawal session left alone ends as its request does: with the tables and the report that creating the order
      leaves, for every sequence of faults. */
  lemma {:induction false} WithdrawsAlone(s0: Ledger, s: Ledger, i: nat, o: Order, weather: nat -> Faults, c: nat)
    returns (s': Ledger)
    requires Alone(s0, s, i) && i < |s.sessions| && s.sessions[i] == Session(Withdraw(o), Beginning(c))
    requires o.kind == TypeWithdrawal && c <= MAX_ATTEMPT_COUNT && !NameHeld(s, i, o.id)
    ensures Alone(s0, s', i)
    ensures var (t', r) := CreateFrom(s.tables, o, weather, c); Ends(s, s', i, Finished(r), t')
    decreases MAX_ATTEMPT_COUNT - c
  {
    hide WithdrawAttempt, Alone;
    s' := AttemptsAlone(s0, s, i, o, weather(c), c);
    var r := WithdrawAttempt(s.tables, o, weather(c)).1;
    if r.Ok? {
      assert r.value == ();
    }
    if r.Err? && Reattempts(c, r.error) {
      assert forall j :: 0 <= j < |s.sessions| && j != i ==> s'.sessions[j] == s.sessions[j];
      s' := WithdrawsAlone(s0, s', i, o, weather, c + 1);
    }
  }

  // ---------------------------------------------------------------- posted order numbers

  lemma {:induction false} FindsAlone(s0: Ledger, s: Ledger, i: nat, weather: nat -> Option<Failure>, c: nat)
    returns (s': Ledger)
    requires Alone(s0, s, i) && i < |s.sessions| && s.sessions[i].request.Post? && s.sessions[i].pc == Finding(c)
    requires c <= MAX_ATTEMPT_COUNT
    ensures Alone(s0, s', i)
    ensures match FindFrom(s.tables, s.sessions[i].request.name, weather, c)
            case Ok(owner) =>
              Ends(s, s', i, Answered(if owner == s.sessions[i].request.user then 200 else 409), s.tables)
            case Err(_) => Ends(s, s', i, Creating(0), s.tables)
    decreases MAX_ATTEMPT_COUNT - c
  {
    hide Alone, OwnerOf, IsRetryable;
    AloneOn(s0, s, i, Find(i, weather(c)));
    s' := Apply(s, Find(i, weather(c)));
    var r := FindAttempt(s.tables, s.sessions[i].request.name, weather(c));
    if r.Err? && Reattempts(c, r.error) {
      s' := FindsAlone(s0, s', i, weather, c + 1);
    }
  }

  lemma {:induction false} CreatesAlone(s0: Ledger, s: Ledger, i: nat, weather: nat -> Faults, c: nat)
    returns (s': Ledger)
    requires Alone(s0, s, i) && i < |s.sessions| && s.sessions[i].request.Post? && s.sessions[i].pc == Creating(c)
    requires c <= MAX_ATTEMPT_COUNT
    ensures Alone(s0, s', i)
    ensures var request := s.sessions[i].request;
            var (t', r) := CreateFrom(s.tables, NewOrder(request.name, request.user), weather, c);
            Ends(s, s', i, Answered(if r.Ok? then 202 else 500), t')
    decreases MAX_ATTEMPT_COUNT - c
  {
    hide Alone, InsertAccrual, Settle, IsRetryable;
    AloneOn(s0, s, i, Create(i, weather(c).commit));
    s' := Apply(s, Create(i, weather(c).commit));
    var r := CreateAttempt(s.tables, NewOrder(s.sessions[i].request.name, s.sessions[i].request.user), weather(c)).1;
    if r.Err? && Reattempts(c, r.error) {
      s' := CreatesAlone(s0, s', i, weather, c + 1);
    }
  }

  /** A posting session left alone ends with the table and the code that the handler ends with. */
  lemma PostsAlone(s: Ledger, i: nat, findWeather: nat -> Option<Failure>, createWeather: nat -> Faults)
    returns (s': Ledger)
    requires i < |s.sessions| && s.sessions[i].request.Post? && s.sessions[i].pc == Finding(0)
    ensures Alone(s, s', i)
    ensures var k := s.sessions[i].request;
            var (t', code) := PostAnswer(s.tables, k.name, k.user, findWeather, createWeather);
            Ends(s, s', i, Answered(code), t')
  {
    hide Alone, FindFrom, CreateFrom;
    AloneNothing(s, i);
    FindOutcome(s.tables, s.sessions[i].request.name, findWeather, 0);
    s' := FindsAlone(s, s, i, findWeather, 0);
    if FindFrom(s.tables, s.sessions[i].request.name, findWeather, 0).Err? {
      s' := CreatesAlone(s, s', i, createWeather, 0);
    }
  }

  // ---------------------------------------------------------------- nobody waits for ever

  /** The session's request has been answered. */
  predicate Ended(k: Session) {
    k.pc.Finished? || k.pc.Answered?
  }

  /** The session would stage a row of a name that session `j` holds. */
  predicate WaitsFor(s: Ledger, i: nat, j: nat) {
    && i < |s.sessions| && j < |s.sessions| && i != j && s.sessions[i].request.Withdraw? && s.sessions[i].pc.Deciding?
    && Decide(s, s.sessions[i].request.order, s.sessions[i].pc, None).Staged?
    && Holds(s.sessions[j], s.sessions[i].request.order.id)
  }

  /** In every state of the invariant, a session that has not ended has a next statement, or waits for the name of its
      row, and then the session that holds the name can commit: nothing ever deadlocks. */
  lemma SomebodyMoves(s: Ledger, i: nat)
    requires Inv(s) && i < |s.sessions| && !Ended(s.sessions[i])
    ensures || (exists e :: IsOf(e, i) && Enabled(s, e))
            || (exists j :: WaitsFor(s, i, j) && Enabled(s, Commit(j, Delivered)))
  {
    hide Valid, HoldersApart, Attributed, StillCovered, AccruedSeen, WithdrawnSeen, Passed, Sufficient,
      InsertWithdrawal, Reattempts;
    var k := s.sessions[i];
    assert SessionOk(s.tables, s.shrunk, k);
    match k.pc {
      case Beginning(_) => assert IsOf(Begin(i, None), i) && Enabled(s, Begin(i, None));
      case ReadingAccrued(_) => assert IsOf(ReadAccrued(i, None), i) && Enabled(s, ReadAccrued(i, None));
      case ReadingWithdrawn(_, _) => assert IsOf(ReadWithdrawn(i, None), i) && Enabled(s, ReadWithdrawn(i, None));
      case Deciding(_, _, _, _) =>
        if Enabled(s, Insert(i, None)) {
          assert IsOf(Insert(i, None), i);
        } else {
          var j :| 0 <= j < |s.sessions| && j != i && Holds(s.sessions[j], k.request.order.id);
          assert WaitsFor(s, i, j) && Enabled(s, Commit(j, Delivered));
        }
      case Staged(_, _, _, _) => assert IsOf(Commit(i, Delivered), i) && Enabled(s, Commit(i, Delivered));
      case Finding(_) => assert IsOf(Find(i, None), i) && Enabled(s, Find(i, None));
      case Creating(_) => assert IsOf(Create(i, Delivered), i) && Enabled(s, Create(i, Delivered));
      case _ =>
    }
  }

  // ---------------------------------------------------------------- from arrival to answer

  /** A request that arrives and is then left alone is answered as it would be in one piece: a withdrawal as the
      repository answers it, a posting as the handler does. */
  lemma ArrivesAlone(s: Ledger, r: Request, findWeather: nat -> Option<Failure>, weather: nat -> Faults)
    returns (s': Ledger)
    requires Enabled(s, Arrive(r))
    requires r.Withdraw? ==> forall j :: 0 <= j < |s.sessions| ==> !Holds(s.sessions[j], r.order.id)
    ensures Alone(Apply(s, Arrive(r)), s', |s.sessions|)
    ensures var i := |s.sessions|;
            match r
            case Withdraw(o) =>
              var (t', done) := CreateFrom(s.tables, o, weather, 0);
              Ends(Apply(s, Arrive(r)), s', i, Finished(done), t')
            case Post(user, name) =>
              var (t', code) := PostAnswer(s.tables, name, user, findWeather, weather);
              Ends(Apply(s, Arrive(r)), s', i, Answered(code), t')
  {
    hide Alone, CreateFrom, PostAnswer;
    var s1 := Apply(s, Arrive(r));
    AloneNothing(s1, |s.sessions|);
    match r {
      case Withdraw(o) => s' := WithdrawsAlone(s1, s1, |s.sessions|, o, weather, 0);
      case Post(user, name) => s' := PostsAlone(s1, |s.sessions|, findWeather, weather);
    }
  }
}
