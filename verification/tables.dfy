/** The two order tables, their constraints, and the statements that read and change them. */
module Tables {
  import opened Results
  import opened Errors

  /** `Unset` is the empty status: no row of the status table carries it. */
  datatype Status = New | Processing | Invalid | Processed | Unset

  /** A row of either table. `amount` is in kopecks, `None` is NULL. */
  datatype Row<S> = Row(user: string, name: string, info: S, amount: Option<int>)

  type AccrualRow = Row<Status>
  type WithdrawalRow = Row<()>

  datatype Tables = Tables(users: set<string>, accrued: seq<AccrualRow>, withdrawn: seq<WithdrawalRow>)

  /** decimal(12,2): ten digits before the point. */
  const NUMERIC_BOUND := 1_000_000_000_000
  const ACCRUAL_NAME_LIMIT := 36
  const WITHDRAWAL_NAME_LIMIT := 24

  // ---------------------------------------------------------------- constraints

  predicate Blank(s: string) {
    forall i :: 0 <= i < |s| ==> s[i] == ' '
  }

  predicate HasName<S>(rows: seq<Row<S>>, name: string) {
    exists i :: 0 <= i < |rows| && rows[i].name == name
  }

  predicate UniqueNames<S>(rows: seq<Row<S>>) {
    forall i, j :: 0 <= i < j < |rows| ==> rows[i].name != rows[j].name
  }

  predicate ValidAmount(amount: Option<int>) {
    amount.Some? ==> 0 <= amount.value < NUMERIC_BOUND
  }

  predicate ValidRow<S>(users: set<string>, r: Row<S>, limit: nat) {
    r.user in users && |r.name| <= limit && !Blank(r.name) && ValidAmount(r.amount)
  }

  /** The tables obey the schema. */
  predicate Valid(t: Tables) {
    && UniqueNames(t.accrued) && UniqueNames(t.withdrawn)
    && (forall r :: r in t.accrued ==> ValidRow(t.users, r, ACCRUAL_NAME_LIMIT) && r.info != Unset)
    && (forall r :: r in t.withdrawn ==> ValidRow(t.users, r, WITHDRAWAL_NAME_LIMIT))
  }

  /** The first complaint of the schema about a row to be inserted, other than a duplicate name. */
  function Complaint<S>(users: set<string>, r: Row<S>, limit: nat): (c: Option<Error>)
    ensures c == None <==> ValidRow(users, r, limit)
    ensures c.Some? ==> c.value.Pg? && !IsRetryable(c.value)
  {
    if |r.name| > limit then Some(Pg(STRING_TOO_LONG))
    else if r.amount.Some? && !(-NUMERIC_BOUND < r.amount.value < NUMERIC_BOUND) then Some(Pg(NUMERIC_OUT_OF_RANGE))
    else if r.amount.Some? && r.amount.value < 0 then Some(Pg(CHECK_VIOLATION))
    else if Blank(r.name) then Some(Pg(CHECK_VIOLATION))
    else if r.user !in users then Some(Pg(FOREIGN_KEY_VIOLATION))
    else None
  }

  // ---------------------------------------------------------------- statements

  function InsertAccrual(t: Tables, user: string, name: string, status: Status): Result<Tables, Error> {
    var r := Row(user, name, status, Some(0));
    if status == Unset then Err(Pg(NOT_NULL_VIOLATION)) else
      match Complaint(t.users, r, ACCRUAL_NAME_LIMIT)
      case Some(e) => Err(e)
      case None => if HasName(t.accrued, name) then Err(Pg(UNIQUE_VIOLATION)) else Ok(t.(accrued := t.accrued + [r]))
  }

  function InsertWithdrawal(t: Tables, user: string, name: string, amount: int): Result<Tables, Error> {
    var r := Row(user, name, (), Some(amount));
    match Complaint(t.users, r, WITHDRAWAL_NAME_LIMIT)
    case Some(e) => Err(e)
    case None =>
      if HasName(t.withdrawn, name) then Err(Pg(UNIQUE_VIOLATION)) else Ok(t.(withdrawn := t.withdrawn + [r]))
  }

  function Restamp(rows: seq<AccrualRow>, name: string, status: Status, amount: Option<int>): (out: seq<AccrualRow>)
    ensures |out| == |rows|
    ensures forall i :: 0 <= i < |rows| ==>
              out[i] == if rows[i].name == name then rows[i].(info := status, amount := amount) else rows[i]
  {
    if rows == [] then [] else
      var r := rows[0];
      [if r.name == name then r.(info := status, amount := amount) else r] + Restamp(rows[1..], name, status, amount)
  }

  /** The update statement; updating no row is not an error of the statement. */
  function UpdateStatus(t: Tables, name: string, status: Status, amount: Option<int>): Result<(Tables, bool), Error> {
    if !HasName(t.accrued, name) then Ok((t, false))
    else if status == Unset then Err(Pg(NOT_NULL_VIOLATION))
    else if amount.Some? && !(-NUMERIC_BOUND < amount.value < NUMERIC_BOUND) then Err(Pg(NUMERIC_OUT_OF_RANGE))
    else if amount.Some? && amount.value < 0 then Err(Pg(CHECK_VIOLATION))
    else Ok((t.(accrued := Restamp(t.accrued, name, status, amount)), true))
  }

  function OwnerOf(rows: seq<AccrualRow>, name: string): Result<string, Error> {
    if rows == [] then Err(NoRows)
    else if rows[0].name == name then Ok(rows[0].user)
    else OwnerOf(rows[1..], name)
  }

  function RowsOf<S>(rows: seq<Row<S>>, user: string): seq<Row<S>> {
    if rows == [] then []
    else (if rows[|rows| - 1].user == user then RowsOf(rows[..|rows| - 1], user) + [rows[|rows| - 1]]
          else RowsOf(rows[..|rows| - 1], user))
  }

  function AmountOr0<S>(r: Row<S>): int {
    if r.amount.Some? then r.amount.value else 0
  }

  /** SQL sum over the amounts, NULLs skipped. */
  function Sum<S>(rows: seq<Row<S>>): int {
    if rows == [] then 0 else Sum(rows[..|rows| - 1]) + AmountOr0(rows[|rows| - 1])
  }

  predicate AllNull<S>(rows: seq<Row<S>>) {
    forall i :: 0 <= i < |rows| ==> rows[i].amount.None?
  }

  /** `SELECT sum(amount)::decimal(12,2) ... WHERE id_user=$1 GROUP BY id_user`. */
  function SumQuery<S>(rows: seq<Row<S>>, user: string): Result<Option<int>, Error> {
    var mine := RowsOf(rows, user);
    if mine == [] then Err(NoRows)
    else if AllNull(mine) then Ok(None)
    else if -NUMERIC_BOUND < Sum(mine) < NUMERIC_BOUND then Ok(Some(Sum(mine)))
    else Err(Pg(NUMERIC_OUT_OF_RANGE))
  }

  function Accrued(t: Tables, user: string): int {
    Sum(RowsOf(t.accrued, user))
  }

  function Withdrawn(t: Tables, user: string): int {
    Sum(RowsOf(t.withdrawn, user))
  }

  function Selectable(rows: seq<AccrualRow>): seq<string> {
    if rows == [] then []
    else (if rows[|rows| - 1].info in {New, Processing} then Selectable(rows[..|rows| - 1]) + [rows[|rows| - 1].name]
          else Selectable(rows[..|rows| - 1]))
  }

  // ---------------------------------------------------------------- what the schema accepts

  /** An order number goes in exactly when its user is known, it has at most 36 characters and not only blanks, the
      status exists and the number is new; the new row has no points yet. */
  lemma AccrualAccepted(t: Tables, user: string, name: string, status: Status)
    ensures InsertAccrual(t, user, name, status).Ok?
       <==> && user in t.users && |name| <= 36 && (exists i :: 0 <= i < |name| && name[i] != ' ')
            && status in {New, Processing, Invalid, Processed}
            && forall i :: 0 <= i < |t.accrued| ==> t.accrued[i].name != name
    ensures InsertAccrual(t, user, name, status).Ok? ==>
              InsertAccrual(t, user, name, status).value ==
              Tables(t.users, t.accrued + [Row(user, name, status, Some(0))], t.withdrawn)
  {
  }

  /** A withdrawal goes in exactly when its user is known, its number has at most 24 characters and not only blanks and
      is new, and the amount is not negative and below ten thousand million roubles. */
  lemma WithdrawalAccepted(t: Tables, user: string, name: string, amount: int)
    ensures InsertWithdrawal(t, user, name, amount).Ok?
       <==> && user in t.users && |name| <= 24 && (exists i :: 0 <= i < |name| && name[i] != ' ')
            && 0 <= amount < 1_000_000_000_000
            && forall i :: 0 <= i < |t.withdrawn| ==> t.withdrawn[i].name != name
    ensures InsertWithdrawal(t, user, name, amount).Ok? ==>
              InsertWithdrawal(t, user, name, amount).value ==
              Tables(t.users, t.accrued, t.withdrawn + [Row(user, name, (), Some(amount))])
  {
  }

  /** What the code of a refusal says of the row. */
  predicate Explains(code: string, users: set<string>, user: string, name: string, limit: nat, amount: int,
                     taken: bool)
  {
    || (code == "22001" && |name| > limit)
    || (code == "22003" && !(-1_000_000_000_000 < amount < 1_000_000_000_000))
    || (code == "23514" && (amount < 0 || forall i :: 0 <= i < |name| ==> name[i] == ' '))
    || (code == "23503" && user !in users)
    || (code == "23505" && taken)
  }

  /** Every refusal names what is wrong: too long, out of range, negative or blank, no such user, taken, or no such
      status. */
  lemma RefusalsExplained(t: Tables, user: string, name: string, status: Status, amount: int)
    ensures var r := InsertWithdrawal(t, user, name, amount);
            r.Err? ==> && r.error.Pg?
                       && Explains(r.error.code, t.users, user, name, 24, amount, HasName(t.withdrawn, name))
    ensures var r := InsertAccrual(t, user, name, status);
            r.Err? ==> && r.error.Pg?
                       && if status == Unset then r.error.code == "23502"
                          else Explains(r.error.code, t.users, user, name, 36, 0, HasName(t.accrued, name))
  {
  }

  /** An update of an order that exists is refused exactly for a status that does not, or an amount that the column
      does not take, and says which; one of an order that does not exist is never refused. */
  lemma UpdateRefused(t: Tables, name: string, status: Status, amount: Option<int>)
    ensures UpdateStatus(t, name, status, amount).Err?
       <==> && HasName(t.accrued, name)
            && (status == Unset || (amount.Some? && !(0 <= amount.value < 1_000_000_000_000)))
    ensures var r := UpdateStatus(t, name, status, amount);
            r.Err? ==> r.error == Pg(if status == Unset then "23502"
                                     else if -1_000_000_000_000 < amount.value < 1_000_000_000_000 then "23514"
                                     else "22003")
    ensures !HasName(t.accrued, name) ==> UpdateStatus(t, name, status, amount) == Ok((t, false))
  {
  }

  // ---------------------------------------------------------------- what the statements keep

  lemma InsertAccrualValid(t: Tables, user: string, name: string, status: Status)
    requires Valid(t) && InsertAccrual(t, user, name, status).Ok?
    ensures Valid(InsertAccrual(t, user, name, status).value)
  {
  }

  lemma InsertWithdrawalValid(t: Tables, user: string, name: string, amount: int)
    requires Valid(t) && InsertWithdrawal(t, user, name, amount).Ok?
    ensures Valid(InsertWithdrawal(t, user, name, amount).value)
    ensures 0 <= amount < NUMERIC_BOUND
  {
  }

  lemma UpdateStatusValid(t: Tables, name: string, status: Status, amount: Option<int>)
    requires Valid(t) && UpdateStatus(t, name, status, amount).Ok?
    ensures Valid(UpdateStatus(t, name, status, amount).value.0)
  {
    if HasName(t.accrued, name) {
      var rows := Restamp(t.accrued, name, status, amount);
      RestampUnique(t.accrued, name, status, amount);
      forall r | r in rows ensures ValidRow(t.users, r, ACCRUAL_NAME_LIMIT) && r.info != Unset {
        var i :| 0 <= i < |rows| && rows[i] == r;
        assert t.accrued[i] in t.accrued;
      }
    }
  }

  lemma RestampUnique(rows: seq<AccrualRow>, name: string, status: Status, amount: Option<int>)
    ensures UniqueNames(rows) ==> UniqueNames(Restamp(rows, name, status, amount))
  {
    var out := Restamp(rows, name, status, amount);
    assert forall i :: 0 <= i < |rows| ==> out[i].name == rows[i].name;
  }

  lemma {:induction false} OwnerOfRow(rows: seq<AccrualRow>, name: string)
    ensures OwnerOf(rows, name) == Err(NoRows) || OwnerOf(rows, name).Ok?
    ensures OwnerOf(rows, name).Ok? <==> HasName(rows, name)
    ensures UniqueNames(rows) ==> forall r :: r in rows && r.name == name ==> OwnerOf(rows, name) == Ok(r.user)
  {
    if rows != [] {
      OwnerOfRow(rows[1..], name);
      if HasName(rows[1..], name) {
        var i :| 0 <= i < |rows[1..]| && rows[1..][i].name == name;
        assert rows[i + 1].name == name;
      }
      if rows[0].name != name && HasName(rows, name) {
        var i :| 0 <= i < |rows| && rows[i].name == name;
        assert rows[1..][i - 1].name == name;
      }
    }
  }

  lemma {:induction false} RowsOfMembers<S>(rows: seq<Row<S>>, user: string)
    ensures forall r :: r in RowsOf(rows, user) <==> r in rows && r.user == user
  {
    if rows != [] {
      RowsOfMembers(rows[..|rows| - 1], user);
      assert rows == rows[..|rows| - 1] + [rows[|rows| - 1]];
    }
  }

  /** A listing keeps the order of the rows, ... */
  lemma {:induction false} RowsOfConcat<S>(a: seq<Row<S>>, b: seq<Row<S>>, user: string)
    ensures RowsOf(a + b, user) == RowsOf(a, user) + RowsOf(b, user)
  {
    if b == [] {
      assert a + b == a;
    } else {
      var front := b[..|b| - 1];
      assert (a + b)[..|a + b| - 1] == a + front;
      RowsOfConcat(a, front, user);
    }
  }

  /** ... and each of the user's rows as often as it is there. */
  lemma {:induction false} RowsOfCounts<S>(rows: seq<Row<S>>, user: string, r: Row<S>)
    ensures multiset(RowsOf(rows, user))[r] == if r.user == user then multiset(rows)[r] else 0
  {
    if rows != [] {
      RowsOfCounts(rows[..|rows| - 1], user, r);
      assert rows == rows[..|rows| - 1] + [rows[|rows| - 1]];
    }
  }

  lemma RowsOfAppend<S>(rows: seq<Row<S>>, r: Row<S>, user: string)
    ensures RowsOf(rows + [r], user) == if r.user == user then RowsOf(rows, user) + [r] else RowsOf(rows, user)
    ensures Sum(RowsOf(rows + [r], user)) == Sum(RowsOf(rows, user)) + if r.user == user then AmountOr0(r) else 0
  {
    assert (rows + [r])[..|rows|] == rows;
    var mine := RowsOf(rows, user);
    assert (mine + [r])[..|mine|] == mine;
  }

  lemma {:induction false} SumOfConcat<S>(a: seq<Row<S>>, b: seq<Row<S>>, user: string)
    ensures Sum(RowsOf(a + b, user)) == Sum(RowsOf(a, user)) + Sum(RowsOf(b, user))
  {
    if b == [] {
      assert a + b == a;
    } else {
      var front, r := b[..|b| - 1], b[|b| - 1];
      assert b == front + [r];
      assert a + b == a + front + [r];
      SumOfConcat(a, front, user);
      SumOfOneMore(a + front, r, user);
      SumOfOneMore(front, r, user);
    }
  }

  lemma SumOfOneMore<S>(rows: seq<Row<S>>, r: Row<S>, user: string)
    ensures Sum(RowsOf(rows + [r], user)) == Sum(RowsOf(rows, user)) + if r.user == user then AmountOr0(r) else 0
  {
    RowsOfAppend(rows, r, user);
  }

  /** Replacing one row moves the sum by what the two rows hold. */
  lemma SumOfSet<S>(rows: seq<Row<S>>, i: nat, r: Row<S>, user: string)
    requires i < |rows|
    ensures Sum(RowsOf(rows[i := r], user)) == Sum(RowsOf(rows, user))
              - (if rows[i].user == user then AmountOr0(rows[i]) else 0)
              + (if r.user == user then AmountOr0(r) else 0)
  {
    var front, back := rows[..i], rows[i + 1..];
    assert rows == front + [rows[i]] + back && rows[i := r] == front + [r] + back;
    SumOfConcat(front + [rows[i]], back, user);
    SumOfConcat(front + [r], back, user);
    SumOfOneMore(front, rows[i], user);
    SumOfOneMore(front, r, user);
  }

  lemma {:induction false} SelectableExactly(rows: seq<AccrualRow>)
    ensures forall n :: n in Selectable(rows) <==>
              exists i :: 0 <= i < |rows| && rows[i].name == n && rows[i].info in {New, Processing}
  {
    if rows != [] {
      var front := rows[..|rows| - 1];
      SelectableExactly(front);
      forall n ensures n in Selectable(rows) <==>
          exists i :: 0 <= i < |rows| && rows[i].name == n && rows[i].info in {New, Processing} {
        if n in Selectable(front) {
          var i :| 0 <= i < |front| && front[i].name == n && front[i].info in {New, Processing};
          assert rows[i].name == n;
        }
        if i :| 0 <= i < |rows| && rows[i].name == n && rows[i].info in {New, Processing} {
          assert i < |front| ==> front[i].name == n;
        }
      }
    }
  }

  // ---------------------------------------------------------------- the database

  /** The order tables as the server holds them, one method a statement. */
  class Database {
    const users: set<string>
    var accrued: seq<AccrualRow>
    var withdrawn: seq<WithdrawalRow>

    function Contents(): Tables
      reads this
    {
      Tables(users, accrued, withdrawn)
    }

    constructor (users: set<string>)
      ensures Contents() == Tables(users, [], [])
    {
      this.users, this.accrued, this.withdrawn := users, [], [];
    }

    method CreateAccrual(user: string, name: string, status: Status) returns (r: Result<(), Error>)
      modifies this
      ensures match InsertAccrual(old(Contents()), user, name, status)
              case Ok(t) => r == Ok(()) && Contents() == t
              case Err(e) => r == Err(e) && Contents() == old(Contents())
    {
      if status == Unset {
        return Err(Pg(NOT_NULL_VIOLATION));
      }
      var row := Row(user, name, status, Some(0));
      var complaint := Complaint(users, row, ACCRUAL_NAME_LIMIT);
      if complaint.Some? {
        return Err(complaint.value);
      }
      for i := 0 to |accrued|
        invariant forall j :: 0 <= j < i ==> accrued[j].name != name
      {
        if accrued[i].name == name {
          return Err(Pg(UNIQUE_VIOLATION));
        }
      }
      accrued := accrued + [row];
      return Ok(());
    }

    method UpdateAccrualStatus(name: string, status: Status, amount: Option<int>) returns (r: Result<bool, Error>)
      modifies this
      ensures match UpdateStatus(old(Contents()), name, status, amount)
              case Ok((t, affected)) => r == Ok(affected) && Contents() == t
              case Err(e) => r == Err(e) && Contents() == old(Contents())
    {
      var rows, affected := [], false;
      for i := 0 to |accrued|
        invariant accrued == old(accrued) && |rows| == i
        invariant forall j :: 0 <= j < i ==>
                    rows[j] == if accrued[j].name == name then accrued[j].(info := status, amount := amount)
                               else accrued[j]
        invariant affected ==> HasName(accrued, name)
        invariant !affected ==> forall j :: 0 <= j < i ==> accrued[j].name != name
      {
        if accrued[i].name == name {
          rows, affected := rows + [accrued[i].(info := status, amount := amount)], true;
        } else {
          rows := rows + [accrued[i]];
        }
      }
      if !affected {
        return Ok(false);
      }
      if status == Unset {
        return Err(Pg(NOT_NULL_VIOLATION));
      }
      if amount.Some? && !(-NUMERIC_BOUND < amount.value < NUMERIC_BOUND) {
        return Err(Pg(NUMERIC_OUT_OF_RANGE));
      }
      if amount.Some? && amount.value < 0 {
        return Err(Pg(CHECK_VIOLATION));
      }
      assert rows == Restamp(accrued, name, status, amount);
      accrued := rows;
      return Ok(true);
    }

    method FindOrderByID(name: string) returns (r: Result<string, Error>)
      ensures r == OwnerOf(accrued, name)
    {
      for i := 0 to |accrued|
        invariant OwnerOf(accrued[i..], name) == OwnerOf(accrued, name)
      {
        if accrued[i].name == name {
          return Ok(accrued[i].user);
        }
        assert accrued[i..][1..] == accrued[i + 1..];
      }
      return Err(NoRows);
    }

    method ListAccrualsByUserID(user: string) returns (items: seq<AccrualRow>)
      ensures items == RowsOf(accrued, user)
    {
      items := ScanRows(accrued, user);
    }

    method ListWithdrawalsByUser(user: string) returns (items: seq<WithdrawalRow>)
      ensures items == RowsOf(withdrawn, user)
    {
      items := ScanRows(withdrawn, user);
    }

    method GetAccruedAmount(user: string) returns (r: Result<Option<int>, Error>)
      ensures r == SumQuery(accrued, user)
    {
      r := SumRows(accrued, user);
    }

    method GetWithdrawnAmount(user: string) returns (r: Result<Option<int>, Error>)
      ensures r == SumQuery(withdrawn, user)
    {
      r := SumRows(withdrawn, user);
    }

    method SelectOrdersForProcessing() returns (items: seq<string>)
      ensures items == Selectable(accrued)
    {
      items := [];
      for i := 0 to |accrued|
        invariant items == Selectable(accrued[..i])
      {
        assert accrued[..i + 1][..i] == accrued[..i];
        if accrued[i].info in {New, Processing} {
          items := items + [accrued[i].name];
        }
      }
      assert accrued[..|accrued|] == accrued;
    }
  }

  /** A transaction that may insert one withdrawal: the row is checked at once and published by the commit. */
  class Transaction {
    const db: Database
    var staged: seq<WithdrawalRow>

    constructor (db: Database)
      ensures this.db == db && staged == []
    {
      this.db, this.staged := db, [];
    }

    method CreateWithdrawal(user: string, name: string, amount: int) returns (r: Result<(), Error>)
      requires staged == []
      modifies this
      ensures match InsertWithdrawal(db.Contents(), user, name, amount)
              case Ok(t) => r == Ok(()) && db.withdrawn + staged == t.withdrawn
              case Err(e) => r == Err(e) && staged == []
    {
      var row := Row(user, name, (), Some(amount));
      var complaint := Complaint(db.users, row, WITHDRAWAL_NAME_LIMIT);
      if complaint.Some? {
        return Err(complaint.value);
      }
      for i := 0 to |db.withdrawn|
        invariant staged == [] && forall j :: 0 <= j < i ==> db.withdrawn[j].name != name
      {
        if db.withdrawn[i].name == name {
          return Err(Pg(UNIQUE_VIOLATION));
        }
      }
      staged := [row];
      return Ok(());
    }

    method Commit()
      modifies this, db
      ensures db.Contents() == old(db.Contents()).(withdrawn := old(db.withdrawn + staged)) && staged == []
    {
      db.withdrawn := db.withdrawn + staged;
      staged := [];
    }

    /** The deferred rollback; after a commit it finds nothing to undo. */
    method Rollback()
      modifies this
      ensures staged == []
    {
      staged := [];
    }
  }

  method ScanRows<S>(rows: seq<Row<S>>, user: string) returns (items: seq<Row<S>>)
    ensures items == RowsOf(rows, user)
  {
    items := [];
    for i := 0 to |rows|
      invariant items == RowsOf(rows[..i], user)
    {
      assert rows[..i + 1][..i] == rows[..i];
      if rows[i].user == user {
        items := items + [rows[i]];
      }
    }
    assert rows[..|rows|] == rows;
  }

  method SumRows<S>(rows: seq<Row<S>>, user: string) returns (r: Result<Option<int>, Error>)
    ensures r == SumQuery(rows, user)
  {
    var mine := ScanRows(rows, user);
    var total, allNull := 0, true;
    for i := 0 to |mine|
      invariant total == Sum(mine[..i])
      invariant allNull <==> AllNull(mine[..i])
    {
      assert mine[..i + 1][..i] == mine[..i];
      if mine[i].amount.Some? {
        assert mine[..i + 1][i].amount.Some?;
        total, allNull := total + mine[i].amount.value, false;
      } else {
        assert allNull ==> forall j :: 0 <= j < i ==> mine[..i][j] == mine[j];
        if !allNull {
          var j :| 0 <= j < i && mine[..i][j].amount.Some?;
          assert mine[..i + 1][j].amount.Some?;
        }
      }
    }
    assert mine[..|mine|] == mine;
    if mine == [] {
      return Err(NoRows);
    }
    if allNull {
      return Ok(None);
    }
    if -NUMERIC_BOUND < total < NUMERIC_BOUND {
      return Ok(Some(total));
    }
    return Err(Pg(NUMERIC_OUT_OF_RANGE));
  }
}
