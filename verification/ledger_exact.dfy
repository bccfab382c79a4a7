/** Exactly which withdrawals are safe side by side when the user's accruals may still grow. */
module LedgerExact {
  import opened Results
  import opened Amounts
  import opened Errors
  import opened Tables
  import opened OrderRepo
  import opened Ledger
  import opened LedgerBounds

  /** Withdrawals of one user that the table would take, each with a name of its own, and each small enough for some
      balance to cover it. */
  predicate EachAcceptable(t: Tables, user: string, os: seq<Order>) {
    && (forall i :: 0 <= i < |os| ==> IsAcceptable(t, user, os[i]))
    && (forall i, j :: 0 <= i < j < |os| ==> os[i].id != os[j].id)
  }

  predicate IsAcceptable(t: Tables, user: string, o: Order) {
    && o.kind == TypeWithdrawal && o.user == user
    && ValidRow(t.users, OrderRow(o), WITHDRAWAL_NAME_LIMIT) && !HasName(t.withdrawn, o.id)
    && Withdrawn(t, user) + o.amount.TotalKopecks() < NUMERIC_BOUND
  }

  function PositiveCount(os: seq<Order>): nat {
    if os == [] then 0
    else PositiveCount(os[..|os| - 1]) + if os[|os| - 1].amount.TotalKopecks() > 0 then 1 else 0
  }

  // ---------------------------------------------------------------- one positive request at most

  lemma {:induction false} PositiveWithout(os: seq<Order>, i: nat)
    requires i < |os|
    ensures PositiveCount(os) ==
            PositiveCount(os[..i] + os[i + 1..]) + if os[i].amount.TotalKopecks() > 0 then 1 else 0
  {
    hide Amount.TotalKopecks;
    var last := |os| - 1;
    var rest := os[..i] + os[i + 1..];
    if i == last {
      assert rest == os[..last];
    } else {
      var front := os[..last];
      PositiveWithout(front, i);
      assert rest[..last - 1] == front[..i] + front[i + 1..];
      assert rest[last - 1] == os[last];
    }
  }

  lemma {:induction false} PositiveAtMost(a: seq<Order>, b: seq<Order>)
    requires multiset(a) <= multiset(b)
    ensures PositiveCount(a) <= PositiveCount(b)
    decreases |b|
  {
    hide Amount.TotalKopecks;
    if a != [] {
      var last := |a| - 1;
      assert a[last] in multiset(b);
      var i :| 0 <= i < |b| && b[i] == a[last];
      PositiveWithout(b, i);
      MultisetWithout(a, last);
      MultisetWithout(b, i);
      assert a[..last] + a[last + 1..] == a[..last];
      PositiveAtMost(a[..last], b[..i] + b[i + 1..]);
    }
  }

  /** Sessions that ask for a positive amount of the user. */
  function Claimants(sessions: seq<Session>, user: string): nat {
    if sessions == [] then 0
    else Claimants(sessions[..|sessions| - 1], user) + if Claim(sessions[|sessions| - 1], user) > 0 then 1 else 0
  }

  lemma {:induction false} ClaimantsAsk(sessions: seq<Session>, user: string)
    ensures Claimants(sessions, user) == PositiveCount(RequestsOf(sessions, user))
  {
    hide Amount.TotalKopecks, Amount.ToPGNumeric;
    if sessions != [] {
      var front, k := sessions[..|sessions| - 1], sessions[|sessions| - 1];
      var asked := RequestsOf(front, user);
      ClaimantsAsk(front, user);
      if AsksFor(k, user) {
        assert RequestsOf(sessions, user) == asked + [k.request.order];
        assert (asked + [k.request.order])[..|asked|] == asked;
        StoredTotal(k.request.order);
      } else {
        assert RequestsOf(sessions, user) == asked;
      }
    }
  }

  lemma {:induction false} ClaimantCounts(sessions: seq<Session>, user: string, i: nat)
    requires i < |sessions| && Claim(sessions[i], user) > 0
    ensures Claimants(sessions, user) > 0
  {
    hide Claim;
    if i < |sessions| - 1 {
      ClaimantCounts(sessions[..|sessions| - 1], user, i);
    }
  }

  lemma {:induction false} LoneClaimant(sessions: seq<Session>, user: string, i: nat, j: nat)
    requires Claimants(sessions, user) <= 1 && i < |sessions| && j < |sessions| && i != j
      && Claim(sessions[i], user) > 0
    ensures Claim(sessions[j], user) == 0
  {
    hide Claim;
    var front := sessions[..|sessions| - 1];
    if i == |sessions| - 1 {
      if Claim(sessions[j], user) > 0 {
        ClaimantCounts(front, user, j);
      }
    } else if j == |sessions| - 1 {
      ClaimantCounts(front, user, i);
    } else {
      LoneClaimant(front, user, i, j);
    }
  }

  lemma {:induction false} ClaimantsMove(sessions: seq<Session>, user: string, i: nat, pc: Pc)
    requires i < |sessions|
    ensures Claimants(sessions[i := sessions[i].(pc := pc)], user) == Claimants(sessions, user)
  {
    var last, moved := |sessions| - 1, sessions[i := sessions[i].(pc := pc)];
    assert Claim(moved[last], user) == Claim(sessions[last], user);
    hide Claim;
    if i == last {
      assert moved[..last] == sessions[..last];
    } else {
      assert moved[..last] == sessions[..last][i := sessions[i].(pc := pc)];
      ClaimantsMove(sessions[..last], user, i, pc);
    }
  }

  lemma EventClaimants(s: Ledger, e: Event, user: string)
    requires Enabled(s, e)
    ensures Claimants(s.sessions, user) <= Claimants(Apply(s, e).sessions, user)
  {
    var s' := Apply(s, e);
    if e.Arrive? {
      assert s'.sessions[..|s.sessions|] == s.sessions;
    } else if !e.Update? {
      MovesOne(s, e);
      ClaimantsMove(s.sessions, user, e.i, s'.sessions[e.i].pc);
    }
  }

  lemma MovesOne(s: Ledger, e: Event)
    requires Enabled(s, e) && !e.Arrive? && !e.Update?
    ensures e.i < |s.sessions| == |Apply(s, e).sessions|
    ensures Apply(s, e).sessions == s.sessions[e.i := s.sessions[e.i].(pc := Apply(s, e).sessions[e.i].pc)]
  {
    hide Decide, AfterFailure, AfterLookup, AfterCreation, Settle, InsertAccrual, Since, GetAmount, Query, FindAttempt;
  }

  lemma {:induction false} RunClaimants(s: Ledger, es: seq<Event>, user: string)
    requires Run(s, es).Some?
    ensures Claimants(s.sessions, user) <= Claimants(Run(s, es).value.sessions, user)
    decreases |es|
  {
    hide Enabled, Apply, Claimants;
    if es != [] {
      EventClaimants(s, es[0], user);
      RunClaimants(Apply(s, es[0]), es[1..], user);
    }
  }

  /** What a session has read takes in all the rows there were at the start. */
  predicate MarksAbove(s: Ledger) {
    forall i :: 0 <= i < |s.sessions| && (s.sessions[i].pc.Deciding? || s.sessions[i].pc.Staged?) ==>
      |s.base.withdrawn| <= s.sessions[i].pc.mark
  }

  lemma EventKeepsMarks(s: Ledger, e: Event)
    requires Inv(s) && MarksAbove(s) && Enabled(s, e)
    ensures MarksAbove(Apply(s, e))
  {
    assert |s.base.withdrawn| <= |s.tables.withdrawn|;
    hide Inv, Sufficient, InsertWithdrawal, InsertAccrual, UpdateStatus, GetAmount, Query, SumQuery, FindAttempt,
      AfterFailure, Since, NameHeld;
  }

  lemma {:induction false} NothingCharged(sessions: seq<Session>, authors: seq<nat>, user: string, i: nat)
    requires i !in authors && forall j :: 0 <= j < |sessions| && j != i ==> Claim(sessions[j], user) == 0
    ensures Charged(sessions, authors, user) == 0
  {
    hide Claim;
    if sessions != [] {
      NothingCharged(sessions[..|sessions| - 1], authors, user, i);
    }
  }

  lemma {:induction false} RowsNonNegative(rows: seq<WithdrawalRow>, user: string)
    requires forall r :: r in rows ==> ValidAmount(r.amount)
    ensures Sum(RowsOf(rows, user)) >= 0
  {
    if rows == [] {
      NoSum(user);
    } else {
      var front, r := rows[..|rows| - 1], rows[|rows| - 1];
      assert rows == front + [r] && r in rows;
      RowsNonNegative(front, user);
      SumOfOneMore(front, r, user);
    }
  }

  /** When no other session claims anything, nothing slips in. */
  lemma NothingSince(s: Ledger, i: nat, user: string)
    requires Inv(s) && MarksAbove(s) && i < |s.sessions| && s.sessions[i].pc.Staged? && AsksFor(s.sessions[i], user)
    requires Claimants(s.sessions, user) <= 1 && Claim(s.sessions[i], user) > 0
    ensures s.sessions[i].pc.mark <= |s.tables.withdrawn| && Since(s.tables, s.sessions[i].pc.mark, user) <= 0
  {
    var mark := s.sessions[i].pc.mark;
    NotYetAuthor(s, i);
    AuthorsDiffer(s);
    AddedRows(s);
    hide Inv, RowsOf, Sum, Charged, Claim, Claimants;
    var base := |s.base.withdrawn|;
    var rows := s.tables.withdrawn[base..];
    RowsAreCharged(rows, s.sessions, s.authors, user);
    forall j | 0 <= j < |s.sessions| && j != i ensures Claim(s.sessions[j], user) == 0 {
      LoneClaimant(s.sessions, user, i, j);
    }
    NothingCharged(s.sessions, s.authors, user, i);
    assert rows == rows[..mark - base] + s.tables.withdrawn[mark..];
    SumOfConcat(rows[..mark - base], s.tables.withdrawn[mark..], user);
    forall r | r in rows[..mark - base] ensures ValidAmount(r.amount) {
      assert r in rows;
    }
    RowsNonNegative(rows[..mark - base], user);
  }

  lemma NotYetAuthor(s: Ledger, i: nat)
    requires Inv(s) && i < |s.sessions| && s.sessions[i].pc.Staged? && s.sessions[i].request.Withdraw?
    ensures i !in s.authors && s.sessions[i].pc.mark <= |s.tables.withdrawn|
  {
    assert SessionOk(s.tables, s.shrunk, s.sessions[i]);
    hide Valid, HoldersApart, StillCovered, SessionsOk, OthersOk;
    AuthorHasRow(s, i);
  }

  lemma AuthorHasRow(s: Ledger, i: nat)
    requires Inv(s)
    ensures i in s.authors ==> && i < |s.sessions| && s.sessions[i].request.Withdraw?
                               && HasName(s.tables.withdrawn, s.sessions[i].request.order.id)
  {
    if i in s.authors {
      var k :| 0 <= k < |s.authors| && s.authors[k] == i;
      assert IsAuthor(s, k);
      hide Inv;
      assert s.tables.withdrawn[|s.base.withdrawn| + k].name == s.sessions[i].request.order.id;
    }
  }

  lemma AuthorsDiffer(s: Ledger)
    requires Inv(s)
    ensures forall i, j :: 0 <= i < j < |s.authors| ==> s.authors[i] != s.authors[j]
  {
    forall i, j | 0 <= i < j < |s.authors| ensures s.authors[i] != s.authors[j] {
      assert IsAuthor(s, i) && IsAuthor(s, j);
    }
  }

  /** While at most one request of the user is positive, every event leaves a covered user covered. */
  lemma EventKeepsCovered(s: Ledger, e: Event, user: string)
    requires Inv(s) && MarksAbove(s) && Enabled(s, e) && Claimants(s.sessions, user) <= 1
    requires Covered(s.tables, user) && user !in Apply(s, e).shrunk
    ensures Covered(Apply(s, e).tables, user)
  {
    hide Inv, Accrued, Withdrawn, Claimants, MarksAbove;
    EventKeepsAccruals(s, e, user);
    if e.Commit? && !e.reply.LostBefore? {
      CommitKeepsCovered(s, e, user);
    } else {
      TakesNothing(s, e, user);
    }
  }

  lemma TakesNothing(s: Ledger, e: Event, user: string)
    requires Enabled(s, e) && (e.Commit? ==> e.reply.LostBefore?)
    ensures Withdrawn(Apply(s, e).tables, user) == Withdrawn(s.tables, user)
  {
    hide RowsOf, Sum, Decide, AfterFailure, AfterLookup, AfterCreation, GetAmount, Query, FindAttempt;
  }

  lemma CommitKeepsCovered(s: Ledger, e: Event, user: string)
    requires Inv(s) && MarksAbove(s) && Enabled(s, e) && Claimants(s.sessions, user) <= 1
    requires e.Commit? && !e.reply.LostBefore? && Covered(s.tables, user) && user !in s.shrunk
    ensures Covered(Apply(s, e).tables, user)
  {
    var o := s.sessions[e.i].request.order;
    CommitAppends(s, e);
    StagedIsValid(s, e.i);
    hide Inv, Claimants, MarksAbove, RowsOf, Sum, Amount.TotalKopecks, Apply, Enabled;
    if o.user != user {
      OtherUserUntouched(s.tables, o, user);
    } else if o.amount.ToPGNumeric() <= 0 {
      RowsOfAppend(s.tables.withdrawn, OrderRow(o), user);
    } else {
      NothingSince(s, e.i, user);
      OverlapBound(s, e.i, e.reply);
    }
  }

  lemma CommitAppends(s: Ledger, e: Event)
    requires Enabled(s, e) && e.Commit? && !e.reply.LostBefore?
    ensures e.i < |s.sessions| && s.sessions[e.i].request.Withdraw? && s.sessions[e.i].pc.Staged?
    ensures Apply(s, e).tables ==
            s.tables.(withdrawn := s.tables.withdrawn + [OrderRow(s.sessions[e.i].request.order)])
  {
    hide Since, OrderRow;
  }

  lemma StagedIsValid(s: Ledger, i: nat)
    requires Inv(s) && i < |s.sessions| && s.sessions[i].pc.Staged? && s.sessions[i].request.Withdraw?
    ensures s.sessions[i].request.order.amount.ToPGNumeric() >= 0
  {
    assert SessionOk(s.tables, s.shrunk, s.sessions[i]);
  }

  lemma {:induction false} RunKeepsCovered(s: Ledger, es: seq<Event>, user: string)
    requires Inv(s) && MarksAbove(s) && Run(s, es).Some? && Claimants(Run(s, es).value.sessions, user) <= 1
    requires Covered(s.tables, user) && user !in Run(s, es).value.shrunk
    ensures Covered(Run(s, es).value.tables, user)
    decreases |es|
  {
    hide Inv, Enabled, Apply, MarksAbove, Covered, Claimants, Accrued;
    if es != [] {
      var s1 := Apply(s, es[0]);
      EventKeeps(s, es[0]);
      EventKeepsMarks(s, es[0]);
      RunClaimants(s, es, user);
      RunKeepsAccruals(s1, es[1..], user);
      EventKeepsCovered(s, es[0], user);
      RunKeepsCovered(s1, es[1..], user);
    }
  }

  lemma OnePositiveIsCovered(t: Tables, s: Ledger, user: string, os: seq<Order>)
    requires Valid(t) && Covered(t, user) && PositiveCount(os) <= 1
    requires Reachable(t, s) && user !in s.shrunk && multiset(RequestsOf(s.sessions, user)) <= multiset(os)
    ensures Covered(s.tables, user)
  {
    hide Covered, Run, PositiveCount, RequestsOf, Claimants, Accrued;
    var es :| Run(Init(t), es) == Some(s);
    InitIsReachable(t);
    ReachableInv(t, Init(t));
    PositiveAtMost(RequestsOf(s.sessions, user), os);
    ClaimantsAsk(s.sessions, user);
    RunKeepsCovered(Init(t), es, user);
  }

  // ---------------------------------------------------------------- accruals that grow

  function Largest(os: seq<Order>): int {
    if os == [] then 0
    else var (m, k) := (Largest(os[..|os| - 1]), os[|os| - 1].amount.TotalKopecks()); if k > m then k else m
  }

  lemma {:induction false} LargestIs(os: seq<Order>)
    ensures forall i :: 0 <= i < |os| ==> os[i].amount.TotalKopecks() <= Largest(os)
    ensures Largest(os) >= 0
    ensures Largest(os) == 0 || exists i :: 0 <= i < |os| && os[i].amount.TotalKopecks() == Largest(os)
  {
    hide Amount.TotalKopecks;
    if os != [] {
      var front := os[..|os| - 1];
      LargestIs(front);
      if Largest(os) == Largest(front) && Largest(front) != 0 {
        var i :| 0 <= i < |front| && front[i].amount.TotalKopecks() == Largest(front);
        assert os[i].amount.TotalKopecks() == Largest(os);
      }
    }
  }

  /** Two positive requests together exceed any single one. */
  lemma {:induction false} SumBeatsLargest(os: seq<Order>)
    requires forall o :: o in os ==> o.amount.TotalKopecks() >= 0
    ensures Totals(os) >= Largest(os)
    ensures PositiveCount(os) >= 1 ==> Totals(os) > 0
    ensures PositiveCount(os) >= 2 ==> Totals(os) > Largest(os)
    ensures PositiveCount(os) == 0 ==> Largest(os) == 0
  {
    hide Amount.TotalKopecks;
    if os != [] {
      assert os[|os| - 1] in os;
      SumBeatsLargest(os[..|os| - 1]);
    }
  }

  lemma {:induction false} SumReplace(rows: seq<AccrualRow>, r: nat, row: AccrualRow, user: string)
    requires r < |rows| && row.user == rows[r].user
    ensures Sum(RowsOf(rows[r := row], user)) ==
            Sum(RowsOf(rows, user)) + if row.user == user then AmountOr0(row) - AmountOr0(rows[r]) else 0
  {
    hide RowsOf, Sum;
    var last := |rows| - 1;
    assert rows == rows[..last] + [rows[last]];
    SumOfOneMore(rows[..last], rows[last], user);
    if r == last {
      assert rows[r := row] == rows[..last] + [row];
      SumOfOneMore(rows[..last], row, user);
    } else {
      assert rows[r := row] == rows[..last][r := row] + [rows[last]];
      SumOfOneMore(rows[..last][r := row], rows[last], user);
      SumReplace(rows[..last], r, row, user);
    }
  }

  /** The accrual row `r` raised by `more`. */
  function Raised(t: Tables, r: nat, more: nat): Tables
    requires r < |t.accrued|
  {
    t.(accrued := t.accrued[r := t.accrued[r].(amount := Some(AmountOr0(t.accrued[r]) + more))])
  }

  function Raise(t: Tables, r: nat, more: nat): Event
    requires r < |t.accrued|
  {
    Update(t.accrued[r].name, t.accrued[r].info, Some(AmountOr0(t.accrued[r]) + more))
  }

  /** An update can raise a row as far as the column goes, and lowers nobody. */
  lemma RaiseRuns(t: Tables, r: nat, more: nat)
    requires Valid(t) && r < |t.accrued| && AmountOr0(t.accrued[r]) + more < NUMERIC_BOUND
    ensures Enabled(Init(t), Raise(t, r, more))
    ensures Apply(Init(t), Raise(t, r, more)) == Init(t).(tables := Raised(t, r, more))
  {
    hide Valid, RowsOf, Sum, UpdateStatus, AmountOr0;
    RaiseUpdates(t, r, more);
    forall u ensures Accrued(t, u) <= Accrued(Raised(t, r, more), u) {
      RaiseLowersNobody(t, r, more, u);
    }
    hide Accrued;
  }

  lemma RaiseUpdates(t: Tables, r: nat, more: nat)
    requires Valid(t) && r < |t.accrued| && AmountOr0(t.accrued[r]) + more < NUMERIC_BOUND
    ensures var row := t.accrued[r];
            UpdateStatus(t, row.name, row.info, Some(AmountOr0(row) + more)) == Ok((Raised(t, r, more), true))
  {
    hide Restamp, ValidRow, UniqueNames;
    var row := t.accrued[r];
    assert row in t.accrued && row.info != Unset;
    RowIsValid(t, row);
    RestampOne(t.accrued, r, row.info, Some(AmountOr0(row) + more));
  }

  lemma RowIsValid(t: Tables, row: AccrualRow)
    requires ValidRow(t.users, row, ACCRUAL_NAME_LIMIT)
    ensures AmountOr0(row) >= 0
  {
  }

  lemma RestampOne(rows: seq<AccrualRow>, r: nat, status: Status, amount: Option<int>)
    requires UniqueNames(rows) && r < |rows|
    ensures Restamp(rows, rows[r].name, status, amount) == rows[r := rows[r].(info := status, amount := amount)]
  {
    var out := Restamp(rows, rows[r].name, status, amount);
    forall i | 0 <= i < |rows| ensures out[i] == rows[r := rows[r].(info := status, amount := amount)][i] {
      assert i < r ==> rows[i].name != rows[r].name;
      assert r < i ==> rows[r].name != rows[i].name;
    }
  }

  lemma RaiseLowersNobody(t: Tables, r: nat, more: nat, user: string)
    requires r < |t.accrued|
    ensures Accrued(t, user) <= Accrued(Raised(t, r, more), user)
  {
    SumReplace(t.accrued, r, t.accrued[r].(amount := Some(AmountOr0(t.accrued[r]) + more)), user);
  }

  lemma EventRebase(s: Ledger, e: Event, base: Tables)
    requires Enabled(s, e)
    ensures Enabled(s.(base := base), e) && Apply(s.(base := base), e) == Apply(s, e).(base := base)
  {
    hide Decide, Since, SumQuery, GetAmount, FindAttempt, InsertAccrual, UpdateStatus, AfterLookup, AfterCreation,
      AfterFailure;
    if e.Insert? {
      DecideRebase(s, s.sessions[e.i].request.order, s.sessions[e.i].pc, e.fault, base);
    }
  }

  lemma DecideRebase(s: Ledger, o: Order, pc: Pc, fault: Option<Failure>, base: Tables)
    requires pc.Deciding?
    ensures Decide(s.(base := base), o, pc, fault) == Decide(s, o, pc, fault)
  {
  }

  /** A run does not look at what the tables were at the start. */
  lemma {:induction false} RunRebase(s: Ledger, es: seq<Event>, base: Tables)
    requires Run(s, es).Some?
    ensures Run(s.(base := base), es) == Some(Run(s, es).value.(base := base))
    decreases |es|
  {
    hide Enabled, Apply;
    if es != [] {
      EventRebase(s, es[0], base);
      RunRebase(Apply(s, es[0]), es[1..], base);
    }
  }

  /** What is reached from the raised tables is reached from the tables themselves. */
  lemma ReachesRaised(t: Tables, r: nat, more: nat, s: Ledger)
    requires Valid(t) && r < |t.accrued| && AmountOr0(t.accrued[r]) + more < NUMERIC_BOUND
    requires Reachable(Raised(t, r, more), s)
    ensures Reachable(t, s.(base := t))
  {
    hide Enabled, Apply, Raised, Raise;
    var es :| Run(Init(Raised(t, r, more)), es) == Some(s);
    RunRebase(Init(Raised(t, r, more)), es, t);
    RaiseRuns(t, r, more);
    var e := Raise(t, r, more);
    assert ([e] + es)[1..] == es;
    assert Run(Init(t), [e] + es) == Run(Apply(Init(t), e), es);
    assert Init(t).(tables := Raised(t, r, more)) == Init(Raised(t, r, more)).(base := t);
  }

  /** The tables in which the largest request is just covered. */
  lemma RaisesEnough(t: Tables, user: string, os: seq<Order>) returns (r: nat, more: nat)
    requires Valid(t) && Covered(t, user) && EachAcceptable(t, user, os) && RowsOf(t.accrued, user) != []
    requires Accrued(t, user) < NUMERIC_BOUND && Summable(t.withdrawn, user)
    ensures r < |t.accrued| && AmountOr0(t.accrued[r]) + more < NUMERIC_BOUND
    ensures EachPayable(Raised(t, r, more), user, os)
    ensures Withdrawn(Raised(t, r, more), user) == Withdrawn(t, user)
    ensures Accrued(Raised(t, r, more), user) ==
            if Withdrawn(t, user) + Largest(os) > Accrued(t, user)
            then Withdrawn(t, user) + Largest(os)
            else Accrued(t, user)
  {
    hide Amount.TotalKopecks, Amount.ToPGNumeric, Sum, Summable, Covered;
    r := RowOfUser(t.accrued, user);
    LargestIs(os);
    var most := Withdrawn(t, user) + Largest(os);
    var target := if most > Accrued(t, user) then most else Accrued(t, user);
    LargestFits(t, user, os);
    more := target - Accrued(t, user);
    RowAtMostSum(t, r, user);
    SumReplace(t.accrued, r, t.accrued[r].(amount := Some(AmountOr0(t.accrued[r]) + more)), user);
    RaisedSummable(t, r, more, user);
  }

  lemma LargestFits(t: Tables, user: string, os: seq<Order>)
    requires EachAcceptable(t, user, os) && Covered(t, user) && Accrued(t, user) < NUMERIC_BOUND
    ensures Withdrawn(t, user) + Largest(os) < NUMERIC_BOUND
  {
    hide Amount.TotalKopecks, Largest, Accrued, Withdrawn;
    LargestIs(os);
  }

  lemma {:induction false} RowOfUser(rows: seq<AccrualRow>, user: string) returns (r: nat)
    requires RowsOf(rows, user) != []
    ensures r < |rows| && rows[r].user == user
  {
    r := |rows| - 1;
    if rows[r].user != user {
      r := RowOfUser(rows[..r], user);
    }
  }

  lemma {:induction false} SumAtLeast(rows: seq<AccrualRow>, r: nat, user: string)
    requires r < |rows| && rows[r].user == user && forall x :: x in rows ==> ValidAmount(x.amount)
    ensures AmountOr0(rows[r]) <= Sum(RowsOf(rows, user))
  {
    hide RowsOf, Sum;
    var last := |rows| - 1;
    assert rows == rows[..last] + [rows[last]] && rows[last] in rows;
    SumOfOneMore(rows[..last], rows[last], user);
    if r < last {
      SumAtLeast(rows[..last], r, user);
    } else {
      AccrualsNonNegative(rows[..last], user);
    }
  }

  lemma {:induction false} AccrualsNonNegative(rows: seq<AccrualRow>, user: string)
    requires forall x :: x in rows ==> ValidAmount(x.amount)
    ensures Sum(RowsOf(rows, user)) >= 0
  {
    if rows != [] {
      var last := |rows| - 1;
      assert rows == rows[..last] + [rows[last]] && rows[last] in rows;
      AccrualsNonNegative(rows[..last], user);
      SumOfOneMore(rows[..last], rows[last], user);
    }
  }

  lemma RowAtMostSum(t: Tables, r: nat, user: string)
    requires Valid(t) && r < |t.accrued| && t.accrued[r].user == user
    ensures 0 <= AmountOr0(t.accrued[r]) <= Accrued(t, user)
  {
    assert t.accrued[r] in t.accrued;
    SumAtLeast(t.accrued, r, user);
  }

  lemma RaisedSummable(t: Tables, r: nat, more: nat, user: string)
    requires r < |t.accrued| && t.accrued[r].user == user
    requires 0 <= Accrued(Raised(t, r, more), user) < NUMERIC_BOUND
    ensures Summable(Raised(t, r, more).accrued, user)
  {
    hide Sum;
    var rows := Raised(t, r, more).accrued;
    RowsOfMembers(rows, user);
    assert rows[r] in rows && rows[r] in RowsOf(rows, user);
    hide RowsOf;
    var k :| 0 <= k < |RowsOf(rows, user)| && RowsOf(rows, user)[k] == rows[r];
  }

  /** Two positive requests that exceed the balance: once the accruals have grown just enough for the larger, both are
      paid. */
  lemma GrowthOverdraws(t: Tables, user: string, os: seq<Order>)
    requires Valid(t) && Covered(t, user) && EachAcceptable(t, user, os) && RowsOf(t.accrued, user) != []
    requires Accrued(t, user) < NUMERIC_BOUND && Summable(t.withdrawn, user)
    requires Withdrawn(t, user) + Totals(os) > Accrued(t, user) && PositiveCount(os) >= 2
    ensures !AlwaysCovered(t, user, os)
  {
    hide Reachable, Amount.TotalKopecks, Amount.ToPGNumeric, Accrued, Withdrawn, Totals, Largest, PositiveCount,
      RequestsOf, RowsOf, Raised, Summable, EachPayable, Valid;
    AcceptableIsPositive(t, user, os);
    SumBeatsLargest(os);
    var r, more := RaisesEnough(t, user, os);
    SomeOrder(os);
    OverlapOverdraws(Raised(t, r, more), user, os);
    var s :| AllTaken(Raised(t, r, more), s, user, os) && !Covered(s.tables, user);
    ReachesRaised(t, r, more, s);
    DoneRequests(s.sessions, user, os);
    var s' := s.(base := t);
    assert Reachable(t, s') && user !in s'.shrunk && multiset(RequestsOf(s'.sessions, user)) <= multiset(os);
  }

  lemma SomeOrder(os: seq<Order>)
    ensures PositiveCount(os) > 0 ==> os != []
  {
  }

  lemma AcceptableIsPositive(t: Tables, user: string, os: seq<Order>)
    requires EachAcceptable(t, user, os)
    ensures forall o :: o in os ==> o.amount.TotalKopecks() >= 0 && o.user == user
  {
    forall o | o in os ensures o.amount.TotalKopecks() >= 0 && o.user == user {
      var i :| 0 <= i < |os| && os[i] == o;
      assert IsAcceptable(t, user, os[i]);
      StoredTotal(o);
    }
  }

  /** The exact condition for withdrawals that the table would take, whether or not they can be paid at the start: a
      covered user who has an accrual stays covered in every interleaving of them, however the accruals grow, if and
      only if the balance covers their sum or at most one of them takes anything. */
  lemma AcceptableExactly(t: Tables, user: string, os: seq<Order>)
    requires Valid(t) && Covered(t, user) && EachAcceptable(t, user, os) && RowsOf(t.accrued, user) != []
    requires Accrued(t, user) < NUMERIC_BOUND && Summable(t.withdrawn, user)
    ensures AlwaysCovered(t, user, os) <==>
            Withdrawn(t, user) + Totals(os) <= Accrued(t, user) || PositiveCount(os) <= 1
  {
    hide Reachable, Accrued, Withdrawn, Totals, RequestsOf, PositiveCount, Amount.TotalKopecks, RowsOf, Summable, Valid;
    AcceptableIsPositive(t, user, os);
    if Withdrawn(t, user) + Totals(os) <= Accrued(t, user) {
      forall s | Reachable(t, s) && user !in s.shrunk && multiset(RequestsOf(s.sessions, user)) <= multiset(os)
        ensures Covered(s.tables, user)
      {
        WithinIsCovered(t, s, user, os);
      }
    } else if PositiveCount(os) <= 1 {
      forall s | Reachable(t, s) && user !in s.shrunk && multiset(RequestsOf(s.sessions, user)) <= multiset(os)
        ensures Covered(s.tables, user)
      {
        OnePositiveIsCovered(t, s, user, os);
      }
    } else {
      GrowthOverdraws(t, user, os);
    }
  }
}
