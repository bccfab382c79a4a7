/** The order repository: balance checks, withdrawals in a transaction, listings, and bounded retries. */
module OrderRepo {
  import opened GoInt
  import opened Results
  import opened Amounts
  import opened Errors
  import opened Tables

  datatype OrderType = TypeAccrual | TypeWithdrawal

  datatype Order = Order(id: string, user: string, status: Status, kind: OrderType, amount: Amount)

  /** The fate of a statement: it runs and answers, it never runs, or it runs and the answer is lost. */
  datatype Reply = Delivered | LostBefore(e: Failure) | LostAfter(e: Failure)

  /** What goes wrong in one attempt. A lone statement is committed by its own `commit` reply. */
  datatype Faults = Faults(begin: Option<Failure>, readAccrued: Option<Failure>, readWithdrawn: Option<Failure>,
                           insert: Option<Failure>, commit: Reply)

  const CLEAN := Faults(None, None, None, None, Delivered)

  // ---------------------------------------------------------------- balance

  /** A sum query's answer as an amount: no rows means zero, a NULL sum is refused. */
  function GetAmount(answer: Result<Option<int>, Error>): Result<Amount, Error> {
    match answer
    case Err(NoRows) => Ok(NewAmount(0, 0))
    case Err(e) => Err(e)
    case Ok(None) => Err(NullNumeric)
    case Ok(Some(total)) =>
      match FromPGNumeric(Some(Wrap(total)))
      case Ok(a) => Ok(a)
      case Err(_) => Err(NullNumeric)
  }

  function Query(fault: Option<Failure>, answer: Result<Option<int>, Error>): Result<Option<int>, Error> {
    match fault
    case Some(e) => Err(e)
    case None => answer
  }

  /** Accrued and withdrawn amounts of a user, read one after the other. */
  function ReadBalance(t: Tables, user: string, f: Faults): Result<(Amount, Amount), Error> {
    match GetAmount(Query(f.readAccrued, SumQuery(t.accrued, user)))
    case Err(e) => Err(e)
    case Ok(accrued) =>
      match GetAmount(Query(f.readWithdrawn, SumQuery(t.withdrawn, user)))
      case Err(e) => Err(e)
      case Ok(withdrawn) => Ok((accrued, withdrawn))
  }

  /** The funds check, in int64 arithmetic. */
  predicate Sufficient(accrued: Amount, withdrawn: Amount, amount: Amount) {
    accrued.TotalKopecks() >= Wrap(amount.TotalKopecks() + withdrawn.TotalKopecks())
  }

  /** The rows of a user can be summed: there are none, or one is not NULL and the sum is a decimal(12,2). */
  predicate Summable<S>(rows: seq<Row<S>>, user: string) {
    var mine := RowsOf(rows, user);
    mine == [] || (!AllNull(mine) && -NUMERIC_BOUND < Sum(mine) < NUMERIC_BOUND)
  }

  lemma GetAmountOfSum<S>(rows: seq<Row<S>>, user: string)
    ensures GetAmount(SumQuery(rows, user)).Ok? <==> Summable(rows, user)
    ensures Summable(rows, user) ==>
              && Canonical(GetAmount(SumQuery(rows, user)).value)
              && GetAmount(SumQuery(rows, user)).value.TotalKopecks() == Sum(RowsOf(rows, user))
              && -NUMERIC_BOUND < Sum(RowsOf(rows, user)) < NUMERIC_BOUND
    ensures GetAmount(SumQuery(rows, user)).Err? ==>
              && !IsRetryable(GetAmount(SumQuery(rows, user)).error)
              && GetAmount(SumQuery(rows, user)).error != InsufficientFunds
  {
    hide Wrap, Quo, Rem, FromPGNumeric, NewAmount, Amount.TotalKopecks, Canonical, RowsOf;
    var total := Sum(RowsOf(rows, user));
    if -NUMERIC_BOUND < total < NUMERIC_BOUND {
      WrapIsIdentity(total);
      NumericTotal(total);
    }
    ZeroTotal();
  }

  lemma ZeroTotal()
    ensures NewAmount(0, 0).TotalKopecks() == 0 && Canonical(NewAmount(0, 0))
  {
  }

  /** A balance that is read without faults is the balance of the tables. */
  lemma ReadBalanceTotals(t: Tables, user: string, f: Faults)
    ensures f.readAccrued.None? && f.readWithdrawn.None? ==>
              (ReadBalance(t, user, f).Ok? <==> Summable(t.accrued, user) && Summable(t.withdrawn, user))
    ensures var b := ReadBalance(t, user, f);
            b.Ok? ==> && b.value.0.TotalKopecks() == Accrued(t, user) && b.value.1.TotalKopecks() == Withdrawn(t, user)
                      && Canonical(b.value.0) && Canonical(b.value.1)
                      && -NUMERIC_BOUND < Withdrawn(t, user) < NUMERIC_BOUND
  {
    hide Canonical, Wrap, Quo, Rem, Amount.TotalKopecks, SumQuery, Summable;
    GetAmountOfSum(t.accrued, user);
    GetAmountOfSum(t.withdrawn, user);
    assert Accrued(t, user) == Sum(RowsOf(t.accrued, user));
    assert Withdrawn(t, user) == Sum(RowsOf(t.withdrawn, user));
  }

  // ---------------------------------------------------------------- one attempt to create an order

  function WithdrawAttempt(t: Tables, o: Order, f: Faults): (Tables, Result<(), Error>) {
    if f.begin.Some? then (t, Err(f.begin.value)) else
      match ReadBalance(t, o.user, f)
      case Err(e) => (t, Err(e))
      case Ok((accrued, withdrawn)) =>
        if !Sufficient(accrued, withdrawn, o.amount) then (t, Err(InsufficientFunds))
        else if f.insert.Some? then (t, Err(f.insert.value))
        else match InsertWithdrawal(t, o.user, o.id, o.amount.ToPGNumeric())
          case Err(e) => (t, Err(e))
          case Ok(t') => Settle(t, Ok(t'), f.commit)
  }

  /** The effect and the report of a change that meets the reply `reply`. */
  function Settle(t: Tables, change: Result<Tables, Error>, reply: Reply): (Tables, Result<(), Error>) {
    match (change, reply)
    case (_, LostBefore(e)) => (t, Err(e))
    case (Err(e), Delivered) => (t, Err(e))
    case (Err(_), LostAfter(e)) => (t, Err(e))
    case (Ok(t'), Delivered) => (t', Ok(()))
    case (Ok(t'), LostAfter(e)) => (t', Err(e))
  }

  function CreateAttempt(t: Tables, o: Order, f: Faults): (Tables, Result<(), Error>) {
    if o.kind == TypeAccrual then Settle(t, InsertAccrual(t, o.user, o.id, o.status), f.commit)
    else WithdrawAttempt(t, o, f)
  }

  /** Creation from attempt number `counter` on. */
  function CreateFrom(t: Tables, o: Order, weather: nat -> Faults, counter: nat): (Tables, Result<(), Error>)
    requires counter <= MAX_ATTEMPT_COUNT
  {
    WithRetry(Creation(o, weather), t, counter)
  }

  function Creation(o: Order, weather: nat -> Faults): (Tables, nat) -> (Tables, Result<(), Error>) {
    (t: Tables, c: nat) => CreateAttempt(t, o, weather(c))
  }

  /** At most four attempts are made: what the fifth and later ones would meet makes no difference. */
  lemma {:induction false} FourAttempts(t: Tables, o: Order, weather: nat -> Faults, other: nat -> Faults, counter: nat)
    requires counter <= MAX_ATTEMPT_COUNT && forall c :: counter <= c < 4 ==> weather(c) == other(c)
    ensures CreateFrom(t, o, weather, counter) == CreateFrom(t, o, other, counter)
    decreases MAX_ATTEMPT_COUNT - counter
  {
    hide CreateAttempt;
    var (t', r) := CreateAttempt(t, o, weather(counter));
    if r.Err? && Reattempts(counter, r.error) {
      FourAttempts(t', o, weather, other, counter + 1);
    }
  }

  function OrderRow(o: Order): WithdrawalRow {
    Row(o.user, o.id, (), Some(o.amount.ToPGNumeric()))
  }

  /** `t'` is `t` with the withdrawal `o` recorded. */
  ghost predicate Recorded(t: Tables, t': Tables, o: Order) {
    t' == t.(withdrawn := t.withdrawn + [OrderRow(o)])
      && InsertWithdrawal(t, o.user, o.id, o.amount.ToPGNumeric()) == Ok(t')
  }

  // ---------------------------------------------------------------- withdrawals, no overlap

  /** The check cannot be cheated by wrap-around: for an amount that fits the column, it passes exactly when the
      balance covers it. */
  lemma CheckCovers(accrued: Amount, withdrawn: Amount, amount: Amount)
    requires 0 <= amount.ToPGNumeric() < NUMERIC_BOUND && -NUMERIC_BOUND < withdrawn.TotalKopecks() < NUMERIC_BOUND
    ensures amount.TotalKopecks() == amount.ToPGNumeric()
    ensures Sufficient(accrued, withdrawn, amount)
       <==> amount.ToPGNumeric() + withdrawn.TotalKopecks() <= accrued.TotalKopecks()
  {
  }

  /** An attempt changes the tables only by recording the order, after its check has passed. */
  lemma WithdrawAttemptShape(t: Tables, o: Order, f: Faults)
    ensures var (t', r) := WithdrawAttempt(t, o, f);
            && (r.Ok? ==> Recorded(t, t', o))
            && (t' != t ==> && Recorded(t, t', o) && ReadBalance(t, o.user, f).Ok?
                            && var (accrued, withdrawn) := ReadBalance(t, o.user, f).value;
                               Sufficient(accrued, withdrawn, o.amount))
  {
    hide Wrap, Amount.TotalKopecks, Amount.ToPGNumeric, Sufficient, ReadBalance, ValidRow, HasName;
  }

  lemma WithdrawAttemptEffect(t: Tables, o: Order, f: Faults)
    requires Valid(t)
    ensures var (t', r) := WithdrawAttempt(t, o, f);
            && (t' == t || Recorded(t, t', o))
            && (r.Ok? ==> Recorded(t, t', o))
            && (t' != t ==> Withdrawn(t', o.user) <= Accrued(t', o.user))
  {
    hide Wrap, Amount.TotalKopecks, Amount.ToPGNumeric, Sufficient, Valid, WithdrawAttempt, ReadBalance,
      InsertWithdrawal, RowsOf, Sum;
    var t' := WithdrawAttempt(t, o, f).0;
    WithdrawAttemptShape(t, o, f);
    if t' != t {
      ReadBalanceTotals(t, o.user, f);
      var (accrued, withdrawn) := ReadBalance(t, o.user, f).value;
      InsertWithdrawalValid(t, o.user, o.id, o.amount.ToPGNumeric());
      CheckCovers(accrued, withdrawn, o.amount);
      RowsOfAppend(t.withdrawn, OrderRow(o), o.user);
    }
  }

  /** Once the row is there, no further attempt changes anything or reports success. */
  lemma {:induction false} AlreadyRecorded(t: Tables, o: Order, weather: nat -> Faults, counter: nat)
    requires counter <= MAX_ATTEMPT_COUNT && o.kind == TypeWithdrawal && HasName(t.withdrawn, o.id)
    ensures CreateFrom(t, o, weather, counter).0 == t && CreateFrom(t, o, weather, counter).1.Err?
    decreases MAX_ATTEMPT_COUNT - counter
  {
    hide Wrap, Sufficient, ReadBalance;
    var (t', r) := CreateAttempt(t, o, weather(counter));
    if Reattempts(counter, r.error) {
      AlreadyRecorded(t, o, weather, counter + 1);
    }
  }

  /** For every sequence of faults, unknown commit outcomes included, the order is recorded at most once; a reported
      success means exactly that; and whenever it is recorded the user is left covered. */
  lemma {:induction false} WithdrawAtMostOnce(t: Tables, o: Order, weather: nat -> Faults, counter: nat)
    requires Valid(t) && counter <= MAX_ATTEMPT_COUNT && o.kind == TypeWithdrawal
    ensures var (t', r) := CreateFrom(t, o, weather, counter);
            && (t' == t || Recorded(t, t', o))
            && (r.Ok? ==> Recorded(t, t', o))
            && (t' != t ==> Withdrawn(t', o.user) <= Accrued(t', o.user))
    decreases MAX_ATTEMPT_COUNT - counter
  {
    hide WithdrawAttempt, Valid, Accrued, Withdrawn;
    var (t', r) := CreateAttempt(t, o, weather(counter));
    WithdrawAttemptEffect(t, o, weather(counter));
    if r.Err? && Reattempts(counter, r.error) {
      if t' == t {
        WithdrawAtMostOnce(t, o, weather, counter + 1);
      } else {
        assert t'.withdrawn[|t.withdrawn|].name == o.id;
        AlreadyRecorded(t', o, weather, counter + 1);
      }
    }
  }

  /** Without faults a withdrawal succeeds exactly when its row is acceptable, its name is new, the balance can be
      read, and the balance covers it. */
  lemma CleanWithdrawal(t: Tables, o: Order, weather: nat -> Faults)
    requires o.kind == TypeWithdrawal && weather(0) == CLEAN
    ensures CreateFrom(t, o, weather, 0).1.Ok?
       <==> && ValidRow(t.users, OrderRow(o), WITHDRAWAL_NAME_LIMIT) && !HasName(t.withdrawn, o.id)
            && Summable(t.accrued, o.user) && Summable(t.withdrawn, o.user)
            && Withdrawn(t, o.user) + o.amount.TotalKopecks() <= Accrued(t, o.user)
  {
    hide Wrap, Quo, Rem, Amount.TotalKopecks, Amount.ToPGNumeric, Sufficient, SumQuery, Summable, Accrued, Withdrawn,
      ReadBalance;
    ReadBalanceTotals(t, o.user, CLEAN);
    GetAmountOfSum(t.accrued, o.user);
    GetAmountOfSum(t.withdrawn, o.user);
    ReadBalanceFailure(t, o.user);
    if ReadBalance(t, o.user, CLEAN).Ok? {
      var (accrued, withdrawn) := ReadBalance(t, o.user, CLEAN).value;
      if ValidAmount(OrderRow(o).amount) {
        CheckCovers(accrued, withdrawn, o.amount);
      }
    }
  }

  /** Without faults a withdrawal is refused for want of funds exactly when the balance can be read and is below what
      the addition comes to: the amount and the earlier withdrawals, where these do not wrap around. */
  lemma RefusedForFunds(t: Tables, o: Order, weather: nat -> Faults)
    requires o.kind == TypeWithdrawal && weather(0) == CLEAN
    ensures CreateFrom(t, o, weather, 0).1 == Err(InsufficientFunds)
       <==> && Summable(t.accrued, o.user) && Summable(t.withdrawn, o.user)
            && Accrued(t, o.user) < Wrap(o.amount.TotalKopecks() + Withdrawn(t, o.user))
    ensures FitsInt64(o.amount.TotalKopecks() + Withdrawn(t, o.user)) ==>
              Wrap(o.amount.TotalKopecks() + Withdrawn(t, o.user)) == o.amount.TotalKopecks() + Withdrawn(t, o.user)
    ensures CreateFrom(t, o, weather, 0).1 == Err(InsufficientFunds) ==> CreateFrom(t, o, weather, 0).0 == t
  {
    WrapIsIdentity(o.amount.TotalKopecks() + Withdrawn(t, o.user));
    hide Wrap, Quo, Rem, Amount.TotalKopecks, Amount.ToPGNumeric, SumQuery, Summable, Accrued, Withdrawn, ReadBalance,
      InsertWithdrawal;
    ReadBalanceTotals(t, o.user, CLEAN);
    ReadBalanceFailure(t, o.user);
    InsertFailure(t, o);
  }

  lemma InsertFailure(t: Tables, o: Order)
    ensures var r := InsertWithdrawal(t, o.user, o.id, o.amount.ToPGNumeric());
            r.Err? ==> r.error.Pg? && !IsRetryable(r.error)
  {
  }

  lemma ReadBalanceFailure(t: Tables, user: string)
    ensures ReadBalance(t, user, CLEAN).Err? ==>
              && !IsRetryable(ReadBalance(t, user, CLEAN).error)
              && ReadBalance(t, user, CLEAN).error != InsufficientFunds
  {
    hide Wrap, Quo, Rem, Amount.TotalKopecks, SumQuery, Summable;
    GetAmountOfSum(t.accrued, user);
    GetAmountOfSum(t.withdrawn, user);
  }

  // ---------------------------------------------------------------- accrual orders

  function PostedRow(o: Order): AccrualRow {
    Row(o.user, o.id, o.status, Some(0))
  }

  /** `t'` is `t` with the accrual order `o` recorded. */
  ghost predicate Posted(t: Tables, t': Tables, o: Order) {
    t' == t.(accrued := t.accrued + [PostedRow(o)]) && InsertAccrual(t, o.user, o.id, o.status) == Ok(t')
  }

  lemma {:induction false} AlreadyPosted(t: Tables, o: Order, weather: nat -> Faults, counter: nat)
    requires counter <= MAX_ATTEMPT_COUNT && o.kind == TypeAccrual && HasName(t.accrued, o.id)
    ensures CreateFrom(t, o, weather, counter).0 == t && CreateFrom(t, o, weather, counter).1.Err?
    decreases MAX_ATTEMPT_COUNT - counter
  {
    var (t', r) := CreateAttempt(t, o, weather(counter));
    if Reattempts(counter, r.error) {
      AlreadyPosted(t, o, weather, counter + 1);
    }
  }

  /** An accrual order too is recorded at most once through any faults, and a success means that it was. */
  lemma {:induction false} AccrualAtMostOnce(t: Tables, o: Order, weather: nat -> Faults, counter: nat)
    requires counter <= MAX_ATTEMPT_COUNT && o.kind == TypeAccrual
    ensures var (t', r) := CreateFrom(t, o, weather, counter);
            (t' == t || Posted(t, t', o)) && (r.Ok? ==> Posted(t, t', o))
    decreases MAX_ATTEMPT_COUNT - counter
  {
    var (t', r) := CreateAttempt(t, o, weather(counter));
    if r.Err? && Reattempts(counter, r.error) {
      if t' == t {
        AccrualAtMostOnce(t, o, weather, counter + 1);
      } else {
        assert t'.accrued[|t.accrued|].name == o.id;
        AlreadyPosted(t', o, weather, counter + 1);
      }
    }
  }

  // ---------------------------------------------------------------- reading the balance

  /** The fault that stops a read-only transaction, if any. */
  function ReadFault(f: Faults): Option<Error> {
    if f.begin.Some? then Some(f.begin.value)
    else if f.readAccrued.Some? then Some(f.readAccrued.value)
    else if f.readWithdrawn.Some? then Some(f.readWithdrawn.value)
    else match f.commit
      case Delivered => None
      case LostBefore(e) => Some(e)
      case LostAfter(e) => Some(e)
  }

  function BalanceAttempt(t: Tables, user: string, f: Faults): Result<(Amount, Amount), Error> {
    if f.begin.Some? then Err(f.begin.value) else
      match ReadBalance(t, user, f)
      case Err(e) => Err(e)
      case Ok(b) =>
        match f.commit
        case Delivered => Ok(b)
        case LostBefore(e) => Err(e)
        case LostAfter(e) => Err(e)
  }

  function BalanceFrom(t: Tables, user: string, weather: nat -> Faults, counter: nat): Result<(Amount, Amount), Error>
    requires counter <= MAX_ATTEMPT_COUNT
  {
    WithRetry((_: (), c: nat) => ((), BalanceAttempt(t, user, weather(c))), (), counter).1
  }

  /** Current and withdrawn amounts, as reported to the user. */
  function ReportedBalance(t: Tables, user: string, weather: nat -> Faults): Result<(Amount, Amount), Error> {
    match BalanceFrom(t, user, weather, 0)
    case Err(e) => Err(e)
    case Ok((accrued, withdrawn)) =>
      Ok((NewAmount(0, Wrap(accrued.TotalKopecks() - withdrawn.TotalKopecks())), withdrawn))
  }

  /** Attempt `k`, the fourth at most, meets no fault, and every one from `counter` up to it a failed connection. */
  predicate GetsThroughAt(faults: nat -> Option<Error>, counter: nat, k: nat) {
    && counter <= k <= 3 && faults(k) == None
    && forall j :: counter <= j < k ==> faults(j).Some? && IsTransient(faults(j).value)
  }

  ghost predicate GetsThrough(faults: nat -> Option<Error>, counter: nat) {
    exists k :: GetsThroughAt(faults, counter, k)
  }

  /** Whether a query gets through is settled at this attempt, or left to the next. */
  lemma GetsThroughStep(faults: nat -> Option<Error>, counter: nat)
    requires counter <= MAX_ATTEMPT_COUNT
    ensures faults(counter) == None ==> GetsThrough(faults, counter)
    ensures faults(counter).Some? ==>
              (GetsThrough(faults, counter) <==>
                Reattempts(counter, faults(counter).value) && GetsThrough(faults, counter + 1))
  {
    var next := counter + 1;
    if faults(counter) == None {
      assert GetsThroughAt(faults, counter, counter);
    } else {
      TransientIsRetryable(faults(counter).value);
      if k :| GetsThroughAt(faults, next, k) {
        assert Reattempts(counter, faults(counter).value) ==> GetsThroughAt(faults, counter, k);
      }
      if k :| GetsThroughAt(faults, counter, k) {
        assert GetsThroughAt(faults, next, k);
      }
    }
  }

  function ReadFaults(weather: nat -> Faults): nat -> Option<Error> {
    (c: nat) => ReadFault(weather(c))
  }

  lemma BalanceAttemptOutcome(t: Tables, user: string, f: Faults)
    ensures var r := BalanceAttempt(t, user, f);
            && (r.Ok? <==> ReadFault(f) == None && Summable(t.accrued, user) && Summable(t.withdrawn, user))
            && (r.Ok? ==>
                  && r.value.0.TotalKopecks() == Accrued(t, user)
                  && r.value.1.TotalKopecks() == Withdrawn(t, user)
                  && Canonical(r.value.0) && Canonical(r.value.1))
            && (r.Err? && Summable(t.accrued, user) && Summable(t.withdrawn, user) ==> ReadFault(f) == Some(r.error))
  {
    hide Canonical, Wrap, Quo, Rem, Amount.TotalKopecks, SumQuery, Summable, Accrued, Withdrawn;
    ReadBalanceTotals(t, user, f);
    GetAmountOfSum(t.accrued, user);
    GetAmountOfSum(t.withdrawn, user);
  }

  lemma {:induction false} BalanceFromOutcome(t: Tables, user: string, weather: nat -> Faults, counter: nat)
    requires counter <= MAX_ATTEMPT_COUNT
    ensures var r := BalanceFrom(t, user, weather, counter);
            && (r.Ok? <==>
                  && GetsThrough(ReadFaults(weather), counter)
                  && Summable(t.accrued, user) && Summable(t.withdrawn, user))
            && (r.Ok? ==>
                  && r.value.0.TotalKopecks() == Accrued(t, user)
                  && r.value.1.TotalKopecks() == Withdrawn(t, user)
                  && Canonical(r.value.0) && Canonical(r.value.1))
    decreases MAX_ATTEMPT_COUNT - counter
  {
    hide Canonical, Amount.TotalKopecks, Summable, Accrued, Withdrawn, BalanceAttempt, ReadFault, GetsThrough;
    var r := BalanceAttempt(t, user, weather(counter));
    BalanceAttemptOutcome(t, user, weather(counter));
    GetsThroughStep(ReadFaults(weather), counter);
    if r.Err? && Reattempts(counter, r.error) {
      BalanceFromOutcome(t, user, weather, counter + 1);
    }
  }

  /** The balance is reported exactly when the database calls get through and both sums exist. What is reported then
      adds up to the accruals, each amount in its one spelling with the kopecks below a rouble. */
  lemma BalanceReported(t: Tables, user: string, weather: nat -> Faults)
    ensures ReportedBalance(t, user, weather).Ok?
       <==> GetsThrough(ReadFaults(weather), 0) && Summable(t.accrued, user) && Summable(t.withdrawn, user)
    ensures ReportedBalance(t, user, weather).Ok? ==>
              var (current, withdrawn) := ReportedBalance(t, user, weather).value;
              && current.TotalKopecks() + withdrawn.TotalKopecks() == Accrued(t, user)
              && withdrawn.TotalKopecks() == Withdrawn(t, user)
              && Canonical(current) && Canonical(withdrawn)
  {
    hide Canonical, Wrap, Quo, Rem, Amount.TotalKopecks, NewAmount, BalanceFrom, Accrued, Withdrawn;
    BalanceFromOutcome(t, user, weather, 0);
    if ReportedBalance(t, user, weather).Ok? {
      var (accrued, withdrawn) := BalanceFrom(t, user, weather, 0).value;
      SumBounds(t, user);
      Remainder(accrued.TotalKopecks(), withdrawn.TotalKopecks());
    }
  }

  lemma SumBounds(t: Tables, user: string)
    requires Summable(t.accrued, user) && Summable(t.withdrawn, user)
    ensures -NUMERIC_BOUND < Accrued(t, user) < NUMERIC_BOUND && -NUMERIC_BOUND < Withdrawn(t, user) < NUMERIC_BOUND
  {
  }

  lemma Remainder(accrued: int, withdrawn: int)
    requires -NUMERIC_BOUND < accrued < NUMERIC_BOUND && -NUMERIC_BOUND < withdrawn < NUMERIC_BOUND
    ensures NewAmount(0, Wrap(accrued - withdrawn)).TotalKopecks() == accrued - withdrawn
    ensures Canonical(NewAmount(0, Wrap(accrued - withdrawn)))
  {
    hide Wrap, NewAmount, Amount.TotalKopecks, Canonical;
    var rest := accrued - withdrawn;
    WrapIsIdentity(rest);
    NewAmountTotal(0, rest);
    CarriedIsCanonical(rest);
  }

  // ---------------------------------------------------------------- listings

  /** A listed row as an order; an amount that cannot be read is logged and left zero. */
  function AsOrder<S>(r: Row<S>, kind: OrderType, status: Status): Order {
    var amount := match FromPGNumeric(if r.amount.Some? then Some(Wrap(r.amount.value)) else None)
                  case Ok(a) => a
                  case Err(_) => ZERO;
    Order(r.name, r.user, status, kind, amount)
  }

  /** The listing of accrual rows; the query turns a NULL amount into zero. */
  function AccrualOrders(rows: seq<AccrualRow>): seq<Order> {
    seq(|rows|, i requires 0 <= i < |rows| =>
      AsOrder(rows[i].(amount := Some(AmountOr0(rows[i]))), TypeAccrual, rows[i].info))
  }

  function WithdrawalOrders(rows: seq<WithdrawalRow>): seq<Order> {
    seq(|rows|, i requires 0 <= i < |rows| => AsOrder(rows[i], TypeWithdrawal, Unset))
  }

  /** The amount of a row, in its one spelling with the kopecks below a rouble; a NULL shows as zero. */
  predicate Shows<S>(a: Amount, r: Row<S>) {
    Canonical(a) && (FitsInt64(AmountOr0(r)) ==> a.TotalKopecks() == AmountOr0(r))
  }

  lemma ReadShows<S>(r: Row<S>, kind: OrderType, status: Status)
    ensures var o := AsOrder(r, kind, status);
            o.id == r.name && o.user == r.user && o.status == status && o.kind == kind && Shows(o.amount, r)
  {
    if r.amount.Some? {
      NumericTotal(Wrap(r.amount.value));
      WrapIsIdentity(r.amount.value);
    } else {
      assert ZERO.TotalKopecks() == 0;
    }
    hide FromPGNumeric, Wrap, Canonical, Amount.TotalKopecks;
  }

  /** A listing has an order for each row of the user, in their order: number, owner, status, kind and amount. */
  lemma AccrualListing(rows: seq<AccrualRow>, user: string)
    ensures var (mine, orders) := (RowsOf(rows, user), AccrualOrders(RowsOf(rows, user)));
            && |orders| == |mine|
            && forall i :: 0 <= i < |mine| ==>
                 && orders[i].id == mine[i].name && orders[i].user == user && orders[i].status == mine[i].info
                 && orders[i].kind == TypeAccrual && Shows(orders[i].amount, mine[i])
  {
    var mine, orders := RowsOf(rows, user), AccrualOrders(RowsOf(rows, user));
    RowsOfMembers(rows, user);
    hide RowsOf, AsOrder, Canonical, Amount.TotalKopecks;
    forall i | 0 <= i < |mine|
      ensures && orders[i].id == mine[i].name && orders[i].user == user && orders[i].status == mine[i].info
              && orders[i].kind == TypeAccrual && Shows(orders[i].amount, mine[i])
    {
      assert mine[i] in mine;
      ReadShows(mine[i].(amount := Some(AmountOr0(mine[i]))), TypeAccrual, mine[i].info);
    }
  }

  lemma WithdrawalListing(rows: seq<WithdrawalRow>, user: string)
    ensures var (mine, orders) := (RowsOf(rows, user), WithdrawalOrders(RowsOf(rows, user)));
            && |orders| == |mine|
            && forall i :: 0 <= i < |mine| ==>
                 && orders[i].id == mine[i].name && orders[i].user == user && orders[i].status == Unset
                 && orders[i].kind == TypeWithdrawal && Shows(orders[i].amount, mine[i])
  {
    var mine, orders := RowsOf(rows, user), WithdrawalOrders(RowsOf(rows, user));
    RowsOfMembers(rows, user);
    hide RowsOf, AsOrder, Shows;
    forall i | 0 <= i < |mine|
      ensures && orders[i].id == mine[i].name && orders[i].user == user && orders[i].status == Unset
              && orders[i].kind == TypeWithdrawal && Shows(orders[i].amount, mine[i])
    {
      assert mine[i] in mine;
      ReadShows(mine[i], TypeWithdrawal, Unset);
    }
  }

  function Totals(orders: seq<Order>): int {
    if orders == [] then 0 else Totals(orders[..|orders| - 1]) + orders[|orders| - 1].amount.TotalKopecks()
  }

  lemma {:induction false} ListedSum<S>(rows: seq<Row<S>>, orders: seq<Order>)
    requires |rows| == |orders| && forall i :: 0 <= i < |rows| ==> orders[i].amount.TotalKopecks() == AmountOr0(rows[i])
    ensures Totals(orders) == Sum(rows)
  {
    if rows != [] {
      ListedSum(rows[..|rows| - 1], orders[..|rows| - 1]);
    }
  }

  lemma {:induction false} TotalsWithout(orders: seq<Order>, i: nat)
    requires i < |orders|
    ensures Totals(orders) == Totals(orders[..i] + orders[i + 1..]) + orders[i].amount.TotalKopecks()
  {
    hide Amount.TotalKopecks;
    var last := |orders| - 1;
    var rest := orders[..i] + orders[i + 1..];
    if i == last {
      assert rest == orders[..last];
    } else {
      var front := orders[..last];
      TotalsWithout(front, i);
      assert rest[..last - 1] == front[..i] + front[i + 1..];
      assert rest[last - 1] == orders[last];
    }
  }

  lemma MultisetWithout<T>(s: seq<T>, i: nat)
    requires i < |s|
    ensures multiset(s[..i] + s[i + 1..]) == multiset(s) - multiset{s[i]}
  {
    assert s == s[..i] + [s[i]] + s[i + 1..];
  }

  /** The total does not depend on the order in which the rows are listed. */
  lemma {:induction false} TotalsPermutation(a: seq<Order>, b: seq<Order>)
    requires multiset(a) == multiset(b)
    ensures Totals(a) == Totals(b)
  {
    if a == [] {
      assert |multiset(b)| == |b|;
    } else {
      var last := |a| - 1;
      assert a[last] in multiset(b);
      var i :| 0 <= i < |b| && b[i] == a[last];
      TotalsWithout(a, last);
      TotalsWithout(b, i);
      MultisetWithout(a, last);
      MultisetWithout(b, i);
      assert a[..last] + a[last + 1..] == a[..last];
      TotalsPermutation(a[..last], b[..i] + b[i + 1..]);
    }
  }

  lemma AccrualOrdersTotal(t: Tables, user: string)
    requires Valid(t)
    ensures Totals(AccrualOrders(RowsOf(t.accrued, user))) == Accrued(t, user)
  {
    var rows := RowsOf(t.accrued, user);
    RowsOfMembers(t.accrued, user);
    forall i | 0 <= i < |rows| ensures AccrualOrders(rows)[i].amount.TotalKopecks() == AmountOr0(rows[i]) {
      assert rows[i] in rows;
    }
    ListedSum(rows, AccrualOrders(rows));
  }

  lemma WithdrawalOrdersTotal(t: Tables, user: string)
    requires Valid(t)
    ensures Totals(WithdrawalOrders(RowsOf(t.withdrawn, user))) == Withdrawn(t, user)
  {
    var rows := RowsOf(t.withdrawn, user);
    RowsOfMembers(t.withdrawn, user);
    forall i | 0 <= i < |rows| ensures WithdrawalOrders(rows)[i].amount.TotalKopecks() == AmountOr0(rows[i]) {
      assert rows[i] in rows;
      assert ZERO.TotalKopecks() == 0;
    }
    ListedSum(rows, WithdrawalOrders(rows));
  }

  /** A reported balance agrees with the listings of the same tables, in whatever order they are listed: current plus
      withdrawn is the total of the listed accruals, and withdrawn the total of the listed withdrawals. */
  lemma BalanceAgreesWithListings(t: Tables, user: string, weather: nat -> Faults,
                                  accruals: seq<Order>, withdrawals: seq<Order>)
    requires Valid(t) && ReportedBalance(t, user, weather).Ok?
    requires multiset(accruals) == multiset(AccrualOrders(RowsOf(t.accrued, user)))
    requires multiset(withdrawals) == multiset(WithdrawalOrders(RowsOf(t.withdrawn, user)))
    ensures var (current, withdrawn) := ReportedBalance(t, user, weather).value;
            && current.TotalKopecks() + withdrawn.TotalKopecks() == Totals(accruals)
            && withdrawn.TotalKopecks() == Totals(withdrawals)
  {
    BalanceReported(t, user, weather);
    TotalsPermutation(accruals, AccrualOrders(RowsOf(t.accrued, user)));
    TotalsPermutation(withdrawals, WithdrawalOrders(RowsOf(t.withdrawn, user)));
    AccrualOrdersTotal(t, user);
    WithdrawalOrdersTotal(t, user);
  }

  /** What the attempts at a query meet. */
  function Met(weather: nat -> Option<Failure>): nat -> Option<Error> {
    (c: nat) => match weather(c) case None => None case Some(e) => Some(e)
  }

  /** The fate of a query that only fails with the connection. */
  function Asked(weather: nat -> Option<Failure>, counter: nat): Result<(), Error>
    requires counter <= MAX_ATTEMPT_COUNT
  {
    WithRetry((_: (), c: nat) => ((), if weather(c).Some? then Err(weather(c).value) else Ok(())), (), counter).1
  }

  /** It is answered exactly when some attempt gets through, and fails with what some attempt met otherwise. */
  lemma {:induction false} AskedOutcome(weather: nat -> Option<Failure>, counter: nat)
    requires counter <= MAX_ATTEMPT_COUNT
    ensures Asked(weather, counter).Ok? <==> GetsThrough(Met(weather), counter)
    ensures Asked(weather, counter).Err? ==>
              exists k :: counter <= k <= 3 && weather(k) == Some(Asked(weather, counter).error)
    decreases MAX_ATTEMPT_COUNT - counter
  {
    hide GetsThrough;
    GetsThroughStep(Met(weather), counter);
    if weather(counter).Some? && Reattempts(counter, weather(counter).value) {
      AskedOutcome(weather, counter + 1);
    }
  }

  // ---------------------------------------------------------------- status updates and lookups

  /** The amount column as the update writes it: a zero amount is written as NULL. */
  function StoredAmount(a: Amount): Option<int> {
    if a.TotalKopecks() != 0 then Some(a.ToPGNumeric()) else None
  }

  function UpdateAttempt(t: Tables, o: Order, reply: Reply): (Tables, Result<(), Error>) {
    match (UpdateStatus(t, o.id, o.status, StoredAmount(o.amount)), reply)
    case (_, LostBefore(e)) => (t, Err(e))
    case (Err(e), Delivered) => (t, Err(e))
    case (Err(_), LostAfter(e)) => (t, Err(e))
    case (Ok((t', affected)), LostAfter(e)) => (t', Err(e))
    case (Ok((t', affected)), Delivered) => (t', if affected then Ok(()) else Err(NothingUpdated))
  }

  function UpdateFrom(t: Tables, o: Order, weather: nat -> Reply, counter: nat): (Tables, Result<(), Error>)
    requires counter <= MAX_ATTEMPT_COUNT
  {
    WithRetry((t': Tables, c: nat) => UpdateAttempt(t', o, weather(c)), t, counter)
  }

  function Updated(t: Tables, o: Order): Tables {
    t.(accrued := Restamp(t.accrued, o.id, o.status, StoredAmount(o.amount)))
  }

  lemma UpdatedTwice(t: Tables, o: Order)
    ensures Updated(Updated(t, o), o) == Updated(t, o)
    ensures HasName(Updated(t, o).accrued, o.id) <==> HasName(t.accrued, o.id)
  {
    hide Restamp, StoredAmount;
    var once, twice := Updated(t, o).accrued, Updated(Updated(t, o), o).accrued;
    assert forall i :: 0 <= i < |once| ==> once[i].name == t.accrued[i].name && twice[i] == once[i];
    if i :| 0 <= i < |t.accrued| && t.accrued[i].name == o.id {
      assert once[i].name == o.id;
    }
  }

  lemma UpdateAttemptEffect(t: Tables, o: Order, reply: Reply)
    ensures var (t', r) := UpdateAttempt(t, o, reply);
            && (t' == t || t' == Updated(t, o))
            && (r.Ok? ==> t' == Updated(t, o) && HasName(t.accrued, o.id) && o.status != Unset)
  {
    hide Restamp, StoredAmount;
  }

  /** Retrying an update is harmless: whatever is lost on the way, the tables end as they were or updated once, and a
      reported success means that the order exists and was updated. */
  lemma {:induction false} UpdateOnce(t: Tables, o: Order, weather: nat -> Reply, counter: nat)
    requires counter <= MAX_ATTEMPT_COUNT
    ensures var (t', r) := UpdateFrom(t, o, weather, counter);
            && (t' == t || t' == Updated(t, o))
            && (r.Ok? ==> t' == Updated(t, o) && HasName(t.accrued, o.id) && o.status != Unset)
    decreases MAX_ATTEMPT_COUNT - counter
  {
    hide UpdateAttempt, Updated, HasName;
    var (t', r) := UpdateAttempt(t, o, weather(counter));
    UpdateAttemptEffect(t, o, weather(counter));
    UpdatedTwice(t, o);
    if r.Err? && Reattempts(counter, r.error) {
      UpdateOnce(t', o, weather, counter + 1);
    }
  }

  /** The update can be made: the order exists, the status is a known one, the amount fits the column. */
  predicate Acceptable(t: Tables, o: Order) {
    HasName(t.accrued, o.id) && o.status != Unset && ValidAmount(StoredAmount(o.amount))
  }

  /** The update is unconditional. An attempt stamps a row exactly when it runs, is acceptable and names the row; the
      status that the row has, final or not, has no say. */
  lemma UpdateIsUnconditional(t: Tables, o: Order, reply: Reply, i: nat)
    requires i < |t.accrued|
    ensures |UpdateAttempt(t, o, reply).0.accrued| == |t.accrued|
    ensures UpdateAttempt(t, o, reply).0.accrued[i] ==
            if !reply.LostBefore? && Acceptable(t, o) && t.accrued[i].name == o.id
            then t.accrued[i].(info := o.status, amount := StoredAmount(o.amount))
            else t.accrued[i]
  {
    hide StoredAmount;
  }

  /** One attempt in full: what it does to the tables and what it reports. */
  lemma UpdateAttemptExactly(t: Tables, o: Order, reply: Reply)
    ensures var (t', r) := UpdateAttempt(t, o, reply);
            && t' == (if !reply.LostBefore? && Acceptable(t, o) then Updated(t, o) else t)
            && (r.Ok? <==> reply == Delivered && Acceptable(t, o))
            && (r.Err? && reply == Delivered ==> !IsRetryable(r.error))
            && (reply != Delivered ==> r == Err(reply.e))
  {
    hide StoredAmount, Restamp;
  }

  /** Attempt `k`, the fourth at most, is the first to run, the connection having failed before each earlier one. */
  predicate LandsAt(weather: nat -> Reply, counter: nat, k: nat) {
    && counter <= k <= 3 && !weather(k).LostBefore?
    && forall j :: counter <= j < k ==> weather(j).LostBefore? && IsTransient(weather(j).e)
  }

  ghost predicate Lands(weather: nat -> Reply, counter: nat) {
    exists k :: LandsAt(weather, counter, k)
  }

  lemma LandsStep(weather: nat -> Reply, counter: nat)
    requires counter <= MAX_ATTEMPT_COUNT
    ensures !weather(counter).LostBefore? ==> Lands(weather, counter)
    ensures weather(counter).LostBefore? ==>
              (Lands(weather, counter) <==> Reattempts(counter, weather(counter).e) && Lands(weather, counter + 1))
  {
    var next := counter + 1;
    if !weather(counter).LostBefore? {
      assert LandsAt(weather, counter, counter);
    } else {
      TransientIsRetryable(weather(counter).e);
      if k :| LandsAt(weather, next, k) {
        assert Reattempts(counter, weather(counter).e) ==> LandsAt(weather, counter, k);
      }
      if k :| LandsAt(weather, counter, k) {
        assert LandsAt(weather, next, k);
      }
    }
  }

  /** The failures that the attempts report. */
  function Lost(weather: nat -> Reply): nat -> Option<Error> {
    (c: nat) => if weather(c) == Delivered then None else Some(weather(c).e)
  }

  /** An update with its retries in full. It takes effect exactly when it is acceptable and some attempt in the limit
      runs; it is reported done exactly when it is acceptable and some attempt gets its answer back. */
  lemma {:induction false} UpdateExactly(t: Tables, o: Order, weather: nat -> Reply, counter: nat)
    requires counter <= MAX_ATTEMPT_COUNT
    ensures var (t', r) := UpdateFrom(t, o, weather, counter);
            && t' == (if Acceptable(t, o) && Lands(weather, counter) then Updated(t, o) else t)
            && (r.Ok? <==> Acceptable(t, o) && GetsThrough(Lost(weather), counter))
    decreases MAX_ATTEMPT_COUNT - counter
  {
    hide UpdateAttempt, Updated, HasName, StoredAmount, Lands, GetsThrough;
    var (t', r) := UpdateAttempt(t, o, weather(counter));
    UpdateAttemptExactly(t, o, weather(counter));
    UpdatedTwice(t, o);
    LandsStep(weather, counter);
    GetsThroughStep(Lost(weather), counter);
    if r.Err? && Reattempts(counter, r.error) {
      UpdateExactly(t', o, weather, counter + 1);
    }
  }

  /** The update on the rows. With some attempt that runs, a status that exists and an amount that the column takes, the
      order's row gets that status, and the amount in kopecks, or NULL for a zero; nothing else is touched. */
  lemma UpdateOnRows(t: Tables, o: Order, weather: nat -> Reply)
    ensures var t' := UpdateFrom(t, o, weather, 0).0;
            && t' == t.(accrued := t'.accrued) && |t'.accrued| == |t.accrued|
            && forall i :: 0 <= i < |t.accrued| ==> t'.accrued[i] == RowAfter(t.accrued[i], o, Lands(weather, 0))
  {
    hide Amount.TotalKopecks, Amount.ToPGNumeric, UpdateFrom, Lands;
    StoredIsTotal(o.amount);
    UpdateExactly(t, o, weather, 0);
    hide StoredAmount;
  }

  ghost function RowAfter(r: AccrualRow, o: Order, runs: bool): AccrualRow {
    var total := o.amount.TotalKopecks();
    if runs && r.name == o.id && o.status != Unset && 0 <= total < 1_000_000_000_000
    then Row(r.user, r.name, o.status, if total == 0 then None else Some(total))
    else r
  }

  lemma StoredIsTotal(a: Amount)
    ensures StoredAmount(a) == if a.TotalKopecks() == 0 then None else Some(a.TotalKopecks())
  {
  }

  /** What an update does to a user's accruals: the order's old amount goes, its new one comes, and nobody else's
      move. */
  lemma AccruedMoves(t: Tables, o: Order, weather: nat -> Reply, i: nat, user: string)
    requires UniqueNames(t.accrued) && i < |t.accrued| && t.accrued[i].name == o.id
    ensures var (t', row) := (UpdateFrom(t, o, weather, 0).0, t.accrued[i]);
            Accrued(t', user) == Accrued(t, user)
              + if row.user == user then AmountOr0(RowAfter(row, o, Lands(weather, 0))) - AmountOr0(row) else 0
  {
    hide Amount.TotalKopecks, UpdateFrom, Lands;
    UpdateOnRows(t, o, weather);
    var row := RowAfter(t.accrued[i], o, Lands(weather, 0));
    assert UpdateFrom(t, o, weather, 0).0.accrued == t.accrued[i := row];
    SumOfSet(t.accrued, i, row, user);
  }

  function FindAttempt(t: Tables, name: string, fault: Option<Failure>): Result<string, Error> {
    match fault
    case Some(e) => Err(NotFound(e))
    case None =>
      match OwnerOf(t.accrued, name)
      case Ok(user) => Ok(user)
      case Err(e) => Err(NotFound(e))
  }

  function FindFrom(t: Tables, name: string, weather: nat -> Option<Failure>, counter: nat): Result<string, Error>
    requires counter <= MAX_ATTEMPT_COUNT
  {
    WithRetry((_: (), c: nat) => ((), FindAttempt(t, name, weather(c))), (), counter).1
  }

  /** A lookup succeeds exactly when some attempt gets through and the order exists, and then names its owner; one that
      fails, for whatever reason, says "not found". */
  lemma {:induction false} FindOutcome(t: Tables, name: string, weather: nat -> Option<Failure>, counter: nat)
    requires counter <= MAX_ATTEMPT_COUNT
    ensures var r := FindFrom(t, name, weather, counter);
            && (r.Ok? <==> GetsThrough(Met(weather), counter) && HasName(t.accrued, name))
            && if r.Ok? then OwnerOf(t.accrued, name) == r else r.error.NotFound?
    decreases MAX_ATTEMPT_COUNT - counter
  {
    hide GetsThrough, OwnerOf, HasName;
    var r := FindAttempt(t, name, weather(counter));
    OwnerOfRow(t.accrued, name);
    GetsThroughStep(Met(weather), counter);
    if r.Err? && Reattempts(counter, r.error) {
      FindOutcome(t, name, weather, counter + 1);
    }
  }

  // ---------------------------------------------------------------- the repository

  class OrderRepository {
    const pool: Database

    constructor (pool: Database)
      ensures this.pool == pool
    {
      this.pool := pool;
    }

    /** The balance reads inside a transaction. */
    method ReadAmounts(user: string, f: Faults) returns (r: Result<(Amount, Amount), Error>)
      ensures r == ReadBalance(pool.Contents(), user, f)
    {
      var sum := pool.GetAccruedAmount(user);
      var accrued := GetAmount(Query(f.readAccrued, sum));
      if accrued.Err? {
        return Err(accrued.error);
      }
      sum := pool.GetWithdrawnAmount(user);
      var withdrawn := GetAmount(Query(f.readWithdrawn, sum));
      if withdrawn.Err? {
        return Err(withdrawn.error);
      }
      return Ok((accrued.value, withdrawn.value));
    }

    /** The withdrawal run in a transaction: begin, read, check, insert, commit, and a deferred rollback. */
    method WithdrawTX(o: Order, f: Faults) returns (r: Result<(), Error>)
      modifies pool
      ensures (pool.Contents(), r) == WithdrawAttempt(old(pool.Contents()), o, f)
    {
      hide Wrap, Amount.TotalKopecks, Amount.ToPGNumeric, ReadBalance, Complaint;
      if f.begin.Some? {
        return Err(f.begin.value);
      }
      var tx := new Transaction(pool);
      var balance := ReadAmounts(o.user, f);
      if balance.Err? {
        tx.Rollback();
        return Err(balance.error);
      }
      if balance.value.0.TotalKopecks() < Wrap(o.amount.TotalKopecks() + balance.value.1.TotalKopecks()) {
        tx.Rollback();
        return Err(InsufficientFunds);
      }
      if f.insert.Some? {
        tx.Rollback();
        return Err(f.insert.value);
      }
      var inserted := tx.CreateWithdrawal(o.user, o.id, o.amount.ToPGNumeric());
      if inserted.Err? {
        tx.Rollback();
        return Err(inserted.error);
      }
      match f.commit {
        case LostBefore(e) =>
          tx.Rollback();
          return Err(e);
        case LostAfter(e) =>
          tx.Commit();
          return Err(e);
        case Delivered =>
          tx.Commit();
          return Ok(());
      }
    }

    method CreateOnce(o: Order, f: Faults) returns (r: Result<(), Error>)
      modifies pool
      ensures (pool.Contents(), r) == CreateAttempt(old(pool.Contents()), o, f)
    {
      if o.kind == TypeAccrual {
        match f.commit {
          case LostBefore(e) =>
            return Err(e);
          case LostAfter(e) =>
            r := pool.CreateAccrual(o.user, o.id, o.status);
            return Err(e);
          case Delivered =>
            r := pool.CreateAccrual(o.user, o.id, o.status);
        }
      } else {
        r := WithdrawTX(o, f);
      }
    }

    method CreateWithRetry(o: Order, weather: nat -> Faults, counter: nat) returns (r: Result<(), Error>)
      requires counter <= MAX_ATTEMPT_COUNT
      modifies pool
      ensures (pool.Contents(), r) == CreateFrom(old(pool.Contents()), o, weather, counter)
      decreases MAX_ATTEMPT_COUNT - counter
    {
      hide CreateAttempt;
      r := CreateOnce(o, weather(counter));
      if r.Ok? || counter >= MAX_ATTEMPT_COUNT {
        return;
      }
      if IsRetryable(r.error) {
        r := CreateWithRetry(o, weather, counter + 1);
      }
    }

    /** A withdrawal that succeeds leaves its user covered and its row in the table, and no other change; one that
        fails has at most left that same row. */
    method CreateOrder(o: Order, weather: nat -> Faults) returns (r: Result<(), Error>)
      modifies pool
      ensures (pool.Contents(), r) == CreateFrom(old(pool.Contents()), o, weather, 0)
      ensures old(Valid(pool.Contents())) && o.kind == TypeWithdrawal ==>
                && (pool.Contents() == old(pool.Contents()) || Recorded(old(pool.Contents()), pool.Contents(), o))
                && (r.Ok? ==> Recorded(old(pool.Contents()), pool.Contents(), o))
                && (r.Ok? ==> Withdrawn(pool.Contents(), o.user) <= Accrued(pool.Contents(), o.user))
    {
      ghost var before := pool.Contents();
      r := CreateWithRetry(o, weather, 0);
      if Valid(before) && o.kind == TypeWithdrawal {
        WithdrawAtMostOnce(before, o, weather, 0);
        assert |before.withdrawn + [OrderRow(o)]| > |before.withdrawn|;
      }
    }

    method BalanceWithRetry(user: string, weather: nat -> Faults, counter: nat)
      returns (r: Result<(Amount, Amount), Error>)
      requires counter <= MAX_ATTEMPT_COUNT
      ensures r == BalanceFrom(pool.Contents(), user, weather, counter)
      decreases MAX_ATTEMPT_COUNT - counter
    {
      var f := weather(counter);
      if f.begin.Some? {
        r := Err(f.begin.value);
      } else {
        r := ReadAmounts(user, f);
        if r.Ok? && !f.commit.Delivered? {
          r := Err(f.commit.e);
        }
      }
      if r.Ok? || counter >= MAX_ATTEMPT_COUNT {
        return;
      }
      if IsRetryable(r.error) {
        r := BalanceWithRetry(user, weather, counter + 1);
      }
    }

    method GetBalance(user: string, weather: nat -> Faults) returns (r: Result<(Amount, Amount), Error>)
      ensures r == ReportedBalance(pool.Contents(), user, weather)
    {
      var balance := BalanceWithRetry(user, weather, 0);
      if balance.Err? {
        return Err(balance.error);
      }
      var (accrued, withdrawn) := balance.value;
      return Ok((NewAmount(0, Wrap(accrued.TotalKopecks() - withdrawn.TotalKopecks())), withdrawn));
    }

    method ListAccruals(user: string) returns (orders: seq<Order>)
      ensures orders == AccrualOrders(RowsOf(pool.accrued, user))
      ensures var rows := RowsOf(pool.accrued, user);
              && |orders| == |rows|
              && forall i :: 0 <= i < |rows| ==>
                   && orders[i].id == rows[i].name && orders[i].user == user && orders[i].status == rows[i].info
                   && orders[i].kind == TypeAccrual && Shows(orders[i].amount, rows[i])
    {
      AccrualListing(pool.accrued, user);
      var rows := pool.ListAccrualsByUserID(user);
      orders := [];
      for i := 0 to |rows|
        invariant |orders| == i && forall j :: 0 <= j < i ==> orders[j] == AccrualOrders(rows)[j]
      {
        var row := rows[i].(amount := Some(AmountOr0(rows[i])));
        orders := orders + [AsOrder(row, TypeAccrual, rows[i].info)];
      }
    }

    method ListWithdrawals(user: string) returns (orders: seq<Order>)
      ensures orders == WithdrawalOrders(RowsOf(pool.withdrawn, user))
      ensures var rows := RowsOf(pool.withdrawn, user);
              && |orders| == |rows|
              && forall i :: 0 <= i < |rows| ==>
                   && orders[i].id == rows[i].name && orders[i].user == user && orders[i].status == Unset
                   && orders[i].kind == TypeWithdrawal && Shows(orders[i].amount, rows[i])
    {
      WithdrawalListing(pool.withdrawn, user);
      var rows := pool.ListWithdrawalsByUser(user);
      orders := [];
      for i := 0 to |rows|
        invariant |orders| == i && forall j :: 0 <= j < i ==> orders[j] == WithdrawalOrders(rows)[j]
      {
        orders := orders + [AsOrder(rows[i], TypeWithdrawal, Unset)];
      }
    }

    method ListOrdersByUser(user: string, kind: OrderType, weather: nat -> Option<Failure>)
      returns (r: Result<seq<Order>, Error>)
      ensures r == Err(EmptyUser) <==> user == ""
      ensures r.Ok? <==> user != "" && GetsThrough(Met(weather), 0)
      ensures r.Err? && user != "" ==> exists k :: 0 <= k <= 3 && weather(k) == Some(r.error)
      ensures r.Ok? ==> r.value == if kind == TypeAccrual then AccrualOrders(RowsOf(pool.accrued, user))
                                   else WithdrawalOrders(RowsOf(pool.withdrawn, user))
      ensures r.Ok? && kind == TypeAccrual ==>
                var rows := RowsOf(pool.accrued, user);
                && |r.value| == |rows|
                && forall i :: 0 <= i < |rows| ==>
                     && r.value[i].id == rows[i].name && r.value[i].user == user && r.value[i].status == rows[i].info
                     && r.value[i].kind == TypeAccrual && Shows(r.value[i].amount, rows[i])
      ensures r.Ok? && kind == TypeWithdrawal ==>
                var rows := RowsOf(pool.withdrawn, user);
                && |r.value| == |rows|
                && forall i :: 0 <= i < |rows| ==>
                     && r.value[i].id == rows[i].name && r.value[i].user == user
                     && r.value[i].kind == TypeWithdrawal && Shows(r.value[i].amount, rows[i])
    {
      hide AsOrder, Shows, RowsOf;
      if |user| == 0 {
        return Err(EmptyUser);
      }
      var asked := Asked(weather, 0);
      AskedOutcome(weather, 0);
      if asked.Err? {
        return Err(asked.error);
      }
      var orders;
      if kind == TypeAccrual {
        orders := ListAccruals(user);
      } else {
        orders := ListWithdrawals(user);
      }
      return Ok(orders);
    }

    method UpdateTry(o: Order, reply: Reply) returns (r: Result<(), Error>)
      modifies pool
      ensures (pool.Contents(), r) == UpdateAttempt(old(pool.Contents()), o, reply)
    {
      hide UpdateStatus;
      var amount := if o.amount.TotalKopecks() != 0 then Some(o.amount.ToPGNumeric()) else None;
      hide Amount.TotalKopecks, Amount.ToPGNumeric;
      match reply {
        case LostBefore(e) =>
          r := Err(e);
        case LostAfter(e) =>
          var answer := pool.UpdateAccrualStatus(o.id, o.status, amount);
          r := Err(e);
        case Delivered =>
          var answer := pool.UpdateAccrualStatus(o.id, o.status, amount);
          r := match answer
               case Err(e) => Err(e)
               case Ok(affected) => if affected then Ok(()) else Err(NothingUpdated);
      }
    }

    method UpdateWithRetry(o: Order, weather: nat -> Reply, counter: nat) returns (r: Result<(), Error>)
      requires counter <= MAX_ATTEMPT_COUNT
      modifies pool
      ensures (pool.Contents(), r) == UpdateFrom(old(pool.Contents()), o, weather, counter)
      decreases MAX_ATTEMPT_COUNT - counter
    {
      hide UpdateAttempt;
      r := UpdateTry(o, weather(counter));
      if r.Ok? || counter >= MAX_ATTEMPT_COUNT {
        return;
      }
      if IsRetryable(r.error) {
        r := UpdateWithRetry(o, weather, counter + 1);
      }
    }

    method UpdateAccrualStatus(o: Order, weather: nat -> Reply) returns (r: Result<(), Error>)
      modifies pool
      ensures (pool.Contents(), r) == UpdateFrom(old(pool.Contents()), o, weather, 0)
      ensures pool.withdrawn == old(pool.withdrawn) && |pool.accrued| == old(|pool.accrued|)
      ensures forall i :: 0 <= i < |pool.accrued| ==>
                pool.accrued[i] == RowAfter(old(pool.accrued)[i], o, Lands(weather, 0))
    {
      UpdateOnRows(pool.Contents(), o, weather);
      hide UpdateFrom, RowAfter, Lands;
      r := UpdateWithRetry(o, weather, 0);
    }

    method FindWithRetry(name: string, weather: nat -> Option<Failure>, counter: nat) returns (r: Result<string, Error>)
      requires counter <= MAX_ATTEMPT_COUNT
      ensures r == FindFrom(pool.Contents(), name, weather, counter)
      decreases MAX_ATTEMPT_COUNT - counter
    {
      if weather(counter).Some? {
        r := Err(NotFound(weather(counter).value));
      } else {
        r := pool.FindOrderByID(name);
        if r.Err? {
          r := Err(NotFound(r.error));
        }
      }
      if r.Ok? || counter >= MAX_ATTEMPT_COUNT {
        return;
      }
      if IsRetryable(r.error) {
        r := FindWithRetry(name, weather, counter + 1);
      }
    }

    method FindUserIDByAccrualID(name: string, weather: nat -> Option<Failure>) returns (r: Result<string, Error>)
      ensures r == FindFrom(pool.Contents(), name, weather, 0)
    {
      r := FindWithRetry(name, weather, 0);
    }
  }
}
