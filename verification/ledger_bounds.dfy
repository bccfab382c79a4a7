/** How far withdrawals that run side by side can go: never further than what was asked for, and just as far as that. */
module LedgerBounds {
  import opened Results
  import opened Amounts
  import opened Tables
  import opened OrderRepo
  import opened Ledger

  // ---------------------------------------------------------------- what was asked for bounds what is taken

  predicate AsksFor(k: Session, user: string) {
    k.request.Withdraw? && k.request.order.user == user
  }

  /** What the session asks to take from the user. */
  function Claim(k: Session, user: string): nat {
    if AsksFor(k, user) && k.request.order.amount.ToPGNumeric() > 0 then k.request.order.amount.ToPGNumeric() else 0
  }

  /** What all sessions together ask to take from the user. */
  function Claims(sessions: seq<Session>, user: string): nat {
    if sessions == [] then 0 else Claims(sessions[..|sessions| - 1], user) + Claim(sessions[|sessions| - 1], user)
  }

  /** The part of it asked for by the sessions in `authors`. */
  function Charged(sessions: seq<Session>, authors: seq<nat>, user: string): nat {
    if sessions == [] then 0
    else
      var last := |sessions| - 1;
      Charged(sessions[..last], authors, user) + if last in authors then Claim(sessions[last], user) else 0
  }

  lemma {:induction false} ChargedNone(sessions: seq<Session>, user: string)
    ensures Charged(sessions, [], user) == 0
  {
    if sessions != [] {
      ChargedNone(sessions[..|sessions| - 1], user);
    }
  }

  lemma {:induction false} ChargedOneMore(sessions: seq<Session>, authors: seq<nat>, i: nat, user: string)
    requires i !in authors
    ensures Charged(sessions, authors + [i], user) ==
            Charged(sessions, authors, user) + if i < |sessions| then Claim(sessions[i], user) else 0
  {
    hide Claim;
    if sessions != [] {
      ChargedOneMore(sessions[..|sessions| - 1], authors, i, user);
    }
  }

  lemma {:induction false} ChargedIsClaimed(sessions: seq<Session>, authors: seq<nat>, user: string)
    ensures Charged(sessions, authors, user) <= Claims(sessions, user)
  {
    hide Claim;
    if sessions != [] {
      ChargedIsClaimed(sessions[..|sessions| - 1], authors, user);
    }
  }

  /** The rows are those of the withdrawals that the sessions in `authors` ask for. */
  ghost predicate RowsBy(rows: seq<WithdrawalRow>, sessions: seq<Session>, authors: seq<nat>) {
    |rows| == |authors| &&
    forall k :: 0 <= k < |rows| ==>
      && authors[k] < |sessions| && sessions[authors[k]].request.Withdraw?
      && rows[k] == OrderRow(sessions[authors[k]].request.order) && ValidAmount(rows[k].amount)
  }

  lemma NoSum(user: string)
    ensures Sum(RowsOf<()>([], user)) == 0
  {
  }

  lemma {:induction false} RowsAreCharged(rows: seq<WithdrawalRow>, sessions: seq<Session>, authors: seq<nat>,
    user: string)
    requires RowsBy(rows, sessions, authors)
    requires forall i, j :: 0 <= i < j < |authors| ==> authors[i] != authors[j]
    ensures Sum(RowsOf(rows, user)) == Charged(sessions, authors, user)
  {
    hide RowsOf, Sum, Charged, Amount.ToPGNumeric;
    if rows == [] {
      ChargedNone(sessions, user);
      assert authors == [];
      NoSum(user);
    } else {
      var last := |rows| - 1;
      RowsAreCharged(rows[..last], sessions, authors[..last], user);
      assert rows == rows[..last] + [rows[last]] && authors == authors[..last] + [authors[last]];
      SumOfOneMore(rows[..last], rows[last], user);
      ChargedOneMore(sessions, authors[..last], authors[last], user);
    }
  }

  lemma AddedRows(s: Ledger)
    requires Inv(s)
    ensures |s.base.withdrawn| <= |s.tables.withdrawn|
    ensures s.tables.withdrawn == s.base.withdrawn + s.tables.withdrawn[|s.base.withdrawn|..]
    ensures RowsBy(s.tables.withdrawn[|s.base.withdrawn|..], s.sessions, s.authors)
  {
    hide SessionsOk, HoldersApart, StillCovered, OrderRow;
    var rows := s.tables.withdrawn[|s.base.withdrawn|..];
    forall k | 0 <= k < |rows|
      ensures && s.authors[k] < |s.sessions| && s.sessions[s.authors[k]].request.Withdraw?
              && rows[k] == OrderRow(s.sessions[s.authors[k]].request.order) && ValidAmount(rows[k].amount)
    {
      assert IsAuthor(s, k) && rows[k] in s.tables.withdrawn;
    }
  }

  /** However the requests interleave and whatever is lost and retried, no more is taken from a user than the user's
      withdrawal requests ask for. */
  lemma TakesNoMoreThanAsked(t: Tables, s: Ledger, user: string)
    requires Valid(t) && Reachable(t, s)
    ensures Withdrawn(s.tables, user) <= Withdrawn(t, user) + Claims(s.sessions, user)
  {
    hide Inv, RowsOf, Sum, Charged, Claims, Run;
    ReachableInv(t, s);
    ReachableBase(t, s);
    AtMostOneRow(t, s);
    AddedRows(s);
    var rows := s.tables.withdrawn[|t.withdrawn|..];
    SumOfConcat(t.withdrawn, rows, user);
    RowsAreCharged(rows, s.sessions, s.authors, user);
    ChargedIsClaimed(s.sessions, s.authors, user);
  }

  lemma ReachableBase(t: Tables, s: Ledger)
    requires Reachable(t, s)
    ensures s.base == t
  {
    hide Run;
    var es :| Run(Init(t), es) == Some(s);
    RunBase(Init(t), es);
  }

  // ---------------------------------------------------------------- accruals only grow, unless an update lowers them

  lemma EventKeepsAccruals(s: Ledger, e: Event, user: string)
    requires Inv(s) && Enabled(s, e)
    ensures s.shrunk <= Apply(s, e).shrunk
    ensures user !in Apply(s, e).shrunk ==> Accrued(s.tables, user) <= Accrued(Apply(s, e).tables, user)
  {
    hide Inv, RowsOf, Sum, UpdateStatus, InsertAccrual, Decide;
    match e {
      case Update(_, _, _) => UpdateGrows(s, e);
      case Create(i, reply) =>
        var k := s.sessions[i];
        var change := InsertAccrual(s.tables, k.request.user, k.request.name, New);
        if change.Ok? {
          PostedGlobal(s, i, change.value);
        }
      case _ =>
    }
  }

  lemma {:induction false} RunKeepsAccruals(s: Ledger, es: seq<Event>, user: string)
    requires Inv(s) && Run(s, es).Some?
    ensures s.shrunk <= Run(s, es).value.shrunk
    ensures user !in Run(s, es).value.shrunk ==> Accrued(s.tables, user) <= Accrued(Run(s, es).value.tables, user)
    decreases |es|
  {
    hide Inv, Enabled, Apply, Accrued;
    if es != [] {
      EventKeeps(s, es[0]);
      EventKeepsAccruals(s, es[0], user);
      RunKeepsAccruals(Apply(s, es[0]), es[1..], user);
    }
  }

  /** A user whose balance covers all that is asked for stays covered, however the requests overlap. */
  lemma CoveredRequests(t: Tables, s: Ledger, user: string)
    requires Valid(t) && Reachable(t, s) && user !in s.shrunk
    requires Withdrawn(t, user) + Claims(s.sessions, user) <= Accrued(t, user)
    ensures Covered(s.tables, user)
  {
    TakesNoMoreThanAsked(t, s, user);
    hide Accrued, Withdrawn, Claims, Run;
    var es :| Run(Init(t), es) == Some(s);
    InitIsReachable(t);
    ReachableInv(t, Init(t));
    RunKeepsAccruals(Init(t), es, user);
  }

  lemma InitIsReachable(t: Tables)
    ensures Reachable(t, Init(t))
  {
    assert Run(Init(t), []) == Some(Init(t));
  }

  // ---------------------------------------------------------------- and all that was asked for can be taken

  /** The withdrawal could be made on its own. */
  predicate Payable(t: Tables, o: Order) {
    && o.kind == TypeWithdrawal && ValidRow(t.users, OrderRow(o), WITHDRAWAL_NAME_LIMIT) && !HasName(t.withdrawn, o.id)
    && Summable(t.accrued, o.user) && Summable(t.withdrawn, o.user)
    && Withdrawn(t, o.user) + o.amount.TotalKopecks() <= Accrued(t, o.user)
  }

  /** Withdrawals of one user, each with a name of its own, that could each be made alone. */
  predicate EachPayable(t: Tables, user: string, os: seq<Order>) {
    && (forall i :: 0 <= i < |os| ==> Payable(t, os[i]) && os[i].user == user)
    && (forall i, j :: 0 <= i < j < |os| ==> os[i].id != os[j].id)
  }

  lemma PassesCheck(t: Tables, o: Order, a: Amount, w: Amount)
    requires Payable(t, o) && a.TotalKopecks() == Accrued(t, o.user) && w.TotalKopecks() == Withdrawn(t, o.user)
    ensures Sufficient(a, w, o.amount)
    ensures InsertWithdrawal(t, o.user, o.id, o.amount.ToPGNumeric()).Ok?
  {
    GetAmountOfSum(t.withdrawn, o.user);
    CheckCovers(a, w, o.amount);
  }

  /** Sessions for `os`, the first `k` of them at `done`, the others at `rest`. */
  function Line(os: seq<Order>, k: nat, done: Pc, rest: Pc): seq<Session> {
    seq(|os|, i requires 0 <= i < |os| => Session(Withdraw(os[i]), if i < k then done else rest))
  }

  lemma LineNext(os: seq<Order>, k: nat, done: Pc, rest: Pc)
    requires k < |os|
    ensures Line(os, k, done, rest)[k := Session(Withdraw(os[k]), done)] == Line(os, k + 1, done, rest)
  {
  }

  lemma LineTurns(os: seq<Order>, done: Pc, rest: Pc, next: Pc)
    ensures Line(os, |os|, done, rest) == Line(os, 0, next, done)
  {
  }

  function Rows(os: seq<Order>): seq<WithdrawalRow> {
    seq(|os|, i requires 0 <= i < |os| => OrderRow(os[i]))
  }

  /** All requests arrive. */
  lemma {:induction false} AllArrive(t: Tables, os: seq<Order>, k: nat, any: Pc)
    requires k <= |os| && forall i :: 0 <= i < |os| ==> os[i].kind == TypeWithdrawal
    ensures Reachable(t, Init(t).(sessions := Line(os[..k], 0, any, Beginning(0))))
  {
    hide Run;
    if k == 0 {
      InitIsReachable(t);
      assert Line(os[..0], 0, any, Beginning(0)) == [];
    } else {
      AllArrive(t, os, k - 1, any);
      var s := Init(t).(sessions := Line(os[..k - 1], 0, any, Beginning(0)));
      Reaches(t, s, Arrive(Withdraw(os[k - 1])));
      assert s.sessions + [Session(Withdraw(os[k - 1]), Beginning(0))] == Line(os[..k], 0, any, Beginning(0));
    }
  }

  /** A session at the start of its first attempt gets through its reads undisturbed. */
  lemma ReadsThrough(t: Tables, s: Ledger, i: nat, o: Order, a: Amount, w: Amount)
    requires Reachable(t, s) && i < |s.sessions| && s.sessions[i] == Session(Withdraw(o), Beginning(0))
    requires GetAmount(SumQuery(s.tables.accrued, o.user)) == Ok(a)
      && GetAmount(SumQuery(s.tables.withdrawn, o.user)) == Ok(w)
    ensures Reachable(t, Move(s, i, Deciding(0, a, w, |s.tables.withdrawn|)))
  {
    hide GetAmount, SumQuery, Run;
    Reaches(t, s, Begin(i, None));
    var s1 := Move(s, i, ReadingAccrued(0));
    Reaches(t, s1, ReadAccrued(i, None));
    var s2 := Move(s1, i, ReadingWithdrawn(0, a));
    Reaches(t, s2, ReadWithdrawn(i, None));
    var s3 := Move(s2, i, Deciding(0, a, w, |s.tables.withdrawn|));
    assert s3.sessions == s.sessions[i := Session(Withdraw(o), Deciding(0, a, w, |s.tables.withdrawn|))];
  }

  /** All sessions read the same balance. */
  lemma {:induction false} AllRead(t: Tables, user: string, os: seq<Order>, a: Amount, w: Amount, k: nat)
    requires EachPayable(t, user, os) && k <= |os|
    requires GetAmount(SumQuery(t.accrued, user)) == Ok(a) && GetAmount(SumQuery(t.withdrawn, user)) == Ok(w)
    ensures Reachable(t, Init(t).(sessions := Line(os, k, Deciding(0, a, w, |t.withdrawn|), Beginning(0))))
  {
    hide GetAmount, SumQuery, Run, Reachable;
    var pc := Deciding(0, a, w, |t.withdrawn|);
    if k == 0 {
      AllArrive(t, os, |os|, pc);
      assert os[..|os|] == os;
    } else {
      AllRead(t, user, os, a, w, k - 1);
      var s := Init(t).(sessions := Line(os, k - 1, pc, Beginning(0)));
      ReadsThrough(t, s, k - 1, os[k - 1], a, w);
      LineNext(os, k - 1, pc, Beginning(0));
    }
  }

  /** All sessions pass the check and insert their rows, none of them visible yet. */
  lemma {:induction false} AllInsert(t: Tables, user: string, os: seq<Order>, a: Amount, w: Amount, k: nat)
    requires EachPayable(t, user, os) && k <= |os|
    requires GetAmount(SumQuery(t.accrued, user)) == Ok(a) && GetAmount(SumQuery(t.withdrawn, user)) == Ok(w)
    requires a.TotalKopecks() == Accrued(t, user) && w.TotalKopecks() == Withdrawn(t, user)
    ensures var m := |t.withdrawn|;
            Reachable(t, Init(t).(sessions := Line(os, k, Staged(0, a, w, m), Deciding(0, a, w, m))))
  {
    hide GetAmount, SumQuery, Run, Reachable, Sufficient, InsertWithdrawal, Amount.TotalKopecks, Amount.ToPGNumeric,
      Accrued, Withdrawn, Payable;
    var m := |t.withdrawn|;
    if k == 0 {
      AllRead(t, user, os, a, w, |os|);
      LineTurns(os, Deciding(0, a, w, m), Beginning(0), Staged(0, a, w, m));
    } else {
      AllInsert(t, user, os, a, w, k - 1);
      var s := Init(t).(sessions := Line(os, k - 1, Staged(0, a, w, m), Deciding(0, a, w, m)));
      PassesCheck(t, os[k - 1], a, w);
      Reaches(t, s, Insert(k - 1, None));
      LineNext(os, k - 1, Staged(0, a, w, m), Deciding(0, a, w, m));
    }
  }

  /** All sessions commit. */
  lemma {:induction false} AllCommit(t: Tables, user: string, os: seq<Order>, a: Amount, w: Amount, k: nat)
    returns (s: Ledger)
    requires EachPayable(t, user, os) && k <= |os|
    requires GetAmount(SumQuery(t.accrued, user)) == Ok(a) && GetAmount(SumQuery(t.withdrawn, user)) == Ok(w)
    requires a.TotalKopecks() == Accrued(t, user) && w.TotalKopecks() == Withdrawn(t, user)
    ensures Reachable(t, s) && s.shrunk == {} && s.tables == t.(withdrawn := t.withdrawn + Rows(os[..k]))
    ensures s.sessions == Line(os, k, Finished(Ok(())), Staged(0, a, w, |t.withdrawn|))
  {
    hide GetAmount, SumQuery, Run, Reachable, Amount.TotalKopecks, Accrued, Withdrawn, Payable, Since, OrderRow;
    var m := |t.withdrawn|;
    if k == 0 {
      AllInsert(t, user, os, a, w, |os|);
      LineTurns(os, Staged(0, a, w, m), Deciding(0, a, w, m), Finished(Ok(())));
      s := Init(t).(sessions := Line(os, 0, Finished(Ok(())), Staged(0, a, w, m)));
      assert t.withdrawn + Rows(os[..0]) == t.withdrawn;
    } else {
      var s1 := AllCommit(t, user, os, a, w, k - 1);
      Reaches(t, s1, Commit(k - 1, Delivered));
      s := Apply(s1, Commit(k - 1, Delivered));
      LineNext(os, k - 1, Finished(Ok(())), Staged(0, a, w, m));
      assert t.withdrawn + Rows(os[..k - 1]) + [OrderRow(os[k - 1])] == t.withdrawn + Rows(os[..k]);
    }
  }

  lemma {:induction false} RowsTotal(t: Tables, user: string, os: seq<Order>)
    requires EachPayable(t, user, os)
    ensures Sum(RowsOf(Rows(os), user)) == Totals(os)
  {
    hide RowsOf, Sum, Amount.TotalKopecks, Payable;
    if os == [] {
      NoSum(user);
    } else {
      var front, o := os[..|os| - 1], os[|os| - 1];
      RowsTotal(t, user, front);
      SumOfOneMore(Rows(front), OrderRow(o), user);
      assert Rows(os) == Rows(front) + [OrderRow(o)];
      StoredTotal(o);
    }
  }

  lemma StoredTotal(o: Order)
    ensures AmountOr0(OrderRow(o)) == o.amount.TotalKopecks()
  {
  }

  /** Every session reports success. */
  predicate AllDone(sessions: seq<Session>, os: seq<Order>) {
    |sessions| == |os| && forall i :: 0 <= i < |os| ==> sessions[i] == Session(Withdraw(os[i]), Finished(Ok(())))
  }

  /** All of `os` are reported done and on record, their whole sum is taken, and no update has touched the accruals. */
  ghost predicate AllTaken(t: Tables, s: Ledger, user: string, os: seq<Order>) {
    && Reachable(t, s) && AllDone(s.sessions, os) && s.shrunk == {}
    && s.tables == t.(withdrawn := t.withdrawn + Rows(os))
    && Withdrawn(s.tables, user) == Withdrawn(t, user) + Totals(os) && Accrued(s.tables, user) == Accrued(t, user)
  }

  lemma TakesAll(t: Tables, user: string, os: seq<Order>, a: Amount, w: Amount) returns (s: Ledger)
    requires EachPayable(t, user, os)
    requires GetAmount(SumQuery(t.accrued, user)) == Ok(a) && GetAmount(SumQuery(t.withdrawn, user)) == Ok(w)
    requires a.TotalKopecks() == Accrued(t, user) && w.TotalKopecks() == Withdrawn(t, user)
    ensures AllTaken(t, s, user, os)
  {
    hide GetAmount, SumQuery, Run, Reachable, Amount.TotalKopecks, RowsOf, Sum, EachPayable, Totals, Rows;
    s := AllCommit(t, user, os, a, w, |os|);
    assert os[..|os|] == os;
    SumOfConcat(t.withdrawn, Rows(os), user);
    RowsTotal(t, user, os);
  }

  /** Withdrawals that could each be made alone can all be reported done, together taking their whole sum; so if that
      exceeds what is left, the user is overdrawn. */
  lemma OverlapOverdraws(t: Tables, user: string, os: seq<Order>)
    requires os != [] && EachPayable(t, user, os)
    ensures exists s :: AllTaken(t, s, user, os)
    ensures Withdrawn(t, user) + Totals(os) > Accrued(t, user) ==>
              exists s :: AllTaken(t, s, user, os) && !Covered(s.tables, user)
  {
    SummableUser(t, user, os);
    GetAmountOfSum(t.accrued, user);
    GetAmountOfSum(t.withdrawn, user);
    var accrued, withdrawn := GetAmount(SumQuery(t.accrued, user)), GetAmount(SumQuery(t.withdrawn, user));
    hide *;
    BalanceIsSum(t, user);
    var s := TakesAll(t, user, os, accrued.value, withdrawn.value);
    if Withdrawn(t, user) + Totals(os) > Accrued(t, user) {
      TakenTooMuch(t, s, user, os);
    }
  }

  lemma BalanceIsSum(t: Tables, user: string)
    ensures Accrued(t, user) == Sum(RowsOf(t.accrued, user)) && Withdrawn(t, user) == Sum(RowsOf(t.withdrawn, user))
  {
  }

  lemma TakenTooMuch(t: Tables, s: Ledger, user: string, os: seq<Order>)
    requires AllTaken(t, s, user, os) && Withdrawn(t, user) + Totals(os) > Accrued(t, user)
    ensures !Covered(s.tables, user)
  {
  }

  lemma SummableUser(t: Tables, user: string, os: seq<Order>)
    requires os != [] && EachPayable(t, user, os)
    ensures Summable(t.accrued, user) && Summable(t.withdrawn, user)
  {
    hide Summable;
    assert Payable(t, os[0]) && os[0].user == user;
  }

  // ---------------------------------------------------------------- exactly when overlapping requests are safe

  /** The withdrawal requests of a user, in the order they arrived. */
  function RequestsOf(sessions: seq<Session>, user: string): seq<Order> {
    if sessions == [] then []
    else
      var k := sessions[|sessions| - 1];
      RequestsOf(sessions[..|sessions| - 1], user) + if AsksFor(k, user) then [k.request.order] else []
  }

  lemma {:induction false} ClaimsAreTotals(sessions: seq<Session>, user: string)
    requires forall o :: o in RequestsOf(sessions, user) ==> o.amount.TotalKopecks() >= 0
    ensures Claims(sessions, user) == Totals(RequestsOf(sessions, user))
  {
    hide Amount.TotalKopecks, Amount.ToPGNumeric;
    if sessions != [] {
      var front, k := sessions[..|sessions| - 1], sessions[|sessions| - 1];
      var asked := RequestsOf(front, user);
      if AsksFor(k, user) {
        assert RequestsOf(sessions, user) == asked + [k.request.order];
        assert (asked + [k.request.order])[..|asked|] == asked;
        ClaimsAreTotals(front, user);
        StoredTotal(k.request.order);
        assert k.request.order in asked + [k.request.order];
      } else {
        assert RequestsOf(sessions, user) == asked;
        ClaimsAreTotals(front, user);
      }
    }
  }

  lemma {:induction false} TotalsAtMost(a: seq<Order>, b: seq<Order>)
    requires multiset(a) <= multiset(b) && forall o :: o in b ==> o.amount.TotalKopecks() >= 0
    ensures Totals(a) <= Totals(b)
    decreases |b|
  {
    hide Amount.TotalKopecks;
    if a == [] {
      TotalsNonNegative(b);
    } else {
      var last := |a| - 1;
      assert a[last] in multiset(b);
      var i :| 0 <= i < |b| && b[i] == a[last];
      var rest := b[..i] + b[i + 1..];
      TotalsWithout(b, i);
      MultisetWithout(a, last);
      MultisetWithout(b, i);
      assert a[..last] + a[last + 1..] == a[..last];
      assert forall o :: o in rest ==> o in b;
      TotalsAtMost(a[..last], rest);
    }
  }

  lemma {:induction false} TotalsNonNegative(os: seq<Order>)
    requires forall o :: o in os ==> o.amount.TotalKopecks() >= 0
    ensures Totals(os) >= 0
  {
    if os != [] {
      TotalsNonNegative(os[..|os| - 1]);
    }
  }

  /** In every interleaving in which the user asks for at most the withdrawals `os`, and no update lowers the user's
      accruals, the user stays covered. */
  ghost predicate AlwaysCovered(t: Tables, user: string, os: seq<Order>) {
    forall s :: Reachable(t, s) && user !in s.shrunk && multiset(RequestsOf(s.sessions, user)) <= multiset(os) ==>
      Covered(s.tables, user)
  }

  lemma {:induction false} DoneRequests(sessions: seq<Session>, user: string, os: seq<Order>)
    requires AllDone(sessions, os) && forall o :: o in os ==> o.user == user
    ensures RequestsOf(sessions, user) == os
  {
    if os != [] {
      DoneRequests(sessions[..|os| - 1], user, os[..|os| - 1]);
    }
  }

  /** The exact condition, for any number of withdrawals that could each be made alone: the user stays covered in every
      interleaving of them if and only if the balance covers their sum. */
  lemma CoveredExactly(t: Tables, user: string, os: seq<Order>)
    requires Valid(t) && os != [] && EachPayable(t, user, os)
    ensures AlwaysCovered(t, user, os) <==> Withdrawn(t, user) + Totals(os) <= Accrued(t, user)
  {
    hide Reachable, Accrued, Withdrawn, Claims, Totals, RequestsOf;
    forall o | o in os ensures o.amount.TotalKopecks() >= 0 && o.user == user {
      var i :| 0 <= i < |os| && os[i] == o;
      PayableIsPositive(t, o);
    }
    if Withdrawn(t, user) + Totals(os) <= Accrued(t, user) {
      forall s | Reachable(t, s) && user !in s.shrunk && multiset(RequestsOf(s.sessions, user)) <= multiset(os)
        ensures Covered(s.tables, user)
      {
        WithinIsCovered(t, s, user, os);
      }
    } else {
      OverlapOverdraws(t, user, os);
      var s :| AllTaken(t, s, user, os) && !Covered(s.tables, user);
      DoneRequests(s.sessions, user, os);
    }
  }

  lemma PayableIsPositive(t: Tables, o: Order)
    requires Payable(t, o)
    ensures o.amount.TotalKopecks() >= 0
  {
    StoredTotal(o);
  }

  lemma WithinIsCovered(t: Tables, s: Ledger, user: string, os: seq<Order>)
    requires Valid(t) && Reachable(t, s) && user !in s.shrunk
    requires forall o :: o in os ==> o.amount.TotalKopecks() >= 0
    requires multiset(RequestsOf(s.sessions, user)) <= multiset(os)
    requires Withdrawn(t, user) + Totals(os) <= Accrued(t, user)
    ensures Covered(s.tables, user)
  {
    hide Reachable, Accrued, Withdrawn, Claims, Totals, RequestsOf, Amount.TotalKopecks;
    forall o | o in RequestsOf(s.sessions, user) ensures o in os {
      assert o in multiset(RequestsOf(s.sessions, user));
      assert o in multiset(os);
    }
    ClaimsAreTotals(s.sessions, user);
    TotalsAtMost(RequestsOf(s.sessions, user), os);
    CoveredRequests(t, s, user);
  }

  lemma OneRow(row: AccrualRow)
    ensures RowsOf([row], row.user) == [row] && Sum([row]) == AmountOr0(row)
  {
    assert [row][..0] == [];
  }

  lemma TwoOrders(o1: Order, o2: Order)
    ensures Totals([o1, o2]) == o1.amount.TotalKopecks() + o2.amount.TotalKopecks()
  {
    hide Amount.TotalKopecks;
    assert [o1, o2][..1] == [o1];
    assert Totals([o1]) == o1.amount.TotalKopecks() by { assert [o1][..0] == []; }
  }

  /** Two withdrawals of one rouble each. */
  function TwoRoubles(user: string): seq<Order> {
    [Order("2", user, Unset, TypeWithdrawal, Amount(1, 0)), Order("3", user, Unset, TypeWithdrawal, Amount(1, 0))]
  }

  lemma RoubleIsPayable(user: string, name: string)
    requires name in {"2", "3"}
    ensures Payable(Tables({user}, [Row(user, "1", Processed, Some(100))], []),
                    Order(name, user, Unset, TypeWithdrawal, Amount(1, 0)))
  {
    OneRow(Row(user, "1", Processed, Some(100)));
    assert name[0] != ' ';
  }

  /** A user with one rouble asks for a rouble twice: both withdrawals are reported done, and the user is overdrawn by
      one rouble. */
  lemma OverdraftExample(user: string)
    ensures var t := Tables({user}, [Row(user, "1", Processed, Some(100))], []);
            exists s :: AllTaken(t, s, user, TwoRoubles(user))
                        && Accrued(s.tables, user) == 100 && Withdrawn(s.tables, user) == 200
  {
    var row := Row(user, "1", Processed, Some(100));
    var t := Tables({user}, [row], []);
    RoubleIsPayable(user, "2");
    RoubleIsPayable(user, "3");
    OneRow(row);
    assert Accrued(t, user) == 100 && Withdrawn(t, user) == 0;
    TwoOrders(TwoRoubles(user)[0], TwoRoubles(user)[1]);
    assert Totals(TwoRoubles(user)) == 200;
    hide Reachable, Payable, Totals, Accrued, Withdrawn, AllDone, Rows;
    OverlapOverdraws(t, user, TwoRoubles(user));
    var s :| AllTaken(t, s, user, TwoRoubles(user));
    assert Accrued(s.tables, user) == 100 && Withdrawn(s.tables, user) == 200;
  }
}
