/** The handler that takes order numbers from users. */
module Handlers {
  import opened GoInt
  import opened Results
  import opened Amounts
  import opened Errors
  import opened Tables
  import opened OrderRepo

  function NewOrder(name: string, user: string): Order {
    Order(name, user, New, TypeAccrual, ZERO)
  }

  /** The table and the code that a valid number ends with, when nobody else is at work on the table. */
  function PostAnswer(t: Tables, name: string, user: string, findWeather: nat -> Option<Failure>,
                      createWeather: nat -> Faults): (Tables, nat)
  {
    match FindFrom(t, name, findWeather, 0)
    case Ok(owner) => (t, if owner == user then 200 else 409)
    case Err(e) =>
      if !e.NotFound? then (t, 500) else
      var (t', created) := CreateFrom(t, NewOrder(name, user), createWeather, 0);
      (t', if created.Ok? then 202 else 500)
  }

  /** Answers one posted order number. `luhnValid`, `isDigit` and `userID` stand for the Luhn check, the test for a
      digit and the authenticated user; `None` is a user that could not be retrieved.

      202 means that the number was new and now belongs to the user, 200 that it already did, 409 that it belongs to
      someone else. Only a 202, or a 500 after an insert whose answer was lost, changes the table, and then by this
      user's row alone. Without faults the answer is determined by the table and the row's own validity. */
  method PostOrder(repo: OrderRepository, orderID: string, luhnValid: bool, isDigit: char -> bool,
                   userID: Option<string>, findWeather: nat -> Option<Failure>, createWeather: nat -> Faults)
    returns (code: nat)
    modifies repo.pool
    ensures code in {200, 202, 400, 409, 422, 500}
    ensures code == 422 <==> !luhnValid
    ensures code == 400 <==> luhnValid && exists i :: 0 <= i < |orderID| && !isDigit(orderID[i])
    ensures code in {200, 202, 409} ==> userID.Some?
    ensures code in {200, 202, 409, 500} && userID.Some? ==>
              (repo.pool.Contents(), code) ==
              PostAnswer(old(repo.pool.Contents()), orderID, userID.value, findWeather, createWeather)
    ensures code == 200 ==> OwnerOf(old(repo.pool.accrued), orderID) == Ok(userID.value)
    ensures code == 409 ==>
              var owner := OwnerOf(old(repo.pool.accrued), orderID);
              owner.Ok? && owner.value != userID.value
    ensures code == 202 ==> repo.pool.accrued == old(repo.pool.accrued) + [Row(userID.value, orderID, New, Some(0))]
    ensures code == 202 ==> Posted(old(repo.pool.Contents()), repo.pool.Contents(), NewOrder(orderID, userID.value))
    ensures code in {200, 202, 409, 500} && userID.Some? && findWeather(0) == None && createWeather(0) == CLEAN ==>
              var (t, user) := (old(repo.pool.Contents()), userID.value);
              code == if HasName(t.accrued, orderID) then (if OwnerOf(t.accrued, orderID) == Ok(user) then 200 else 409)
                      else if user in t.users && |orderID| <= 36 && !Blank(orderID) then 202
                      else 500
    ensures repo.pool.Contents() == old(repo.pool.Contents())
         || (&& code in {202, 500} && userID.Some?
             && Posted(old(repo.pool.Contents()), repo.pool.Contents(), NewOrder(orderID, userID.value)))
  {
    if !luhnValid {
      return 422;
    }
    for i := 0 to |orderID|
      invariant repo.pool.Contents() == old(repo.pool.Contents())
      invariant forall j :: 0 <= j < i ==> isDigit(orderID[j])
    {
      if !isDigit(orderID[i]) {
        return 400;
      }
    }
    if userID == None {
      return 500;
    }
    var found := repo.FindUserIDByAccrualID(orderID, findWeather);
    OwnerOfRow(repo.pool.accrued, orderID);
    if found.Err? && found.error.NotFound? {
      var o := NewOrder(orderID, userID.value);
      AccrualAtMostOnce(repo.pool.Contents(), o, createWeather, 0);
      var created := repo.CreateOrder(o, createWeather);
      if created.Err? {
        return 500;
      }
      return 202;
    } else if found.Err? {
      // FindOutcome shows that no lookup ends here
      return 500;
    }
    FindOutcome(repo.pool.Contents(), orderID, findWeather, 0);
    if userID.value == found.value {
      return 200;
    }
    return 409;
  }

  function NewWithdrawal(name: string, user: string, amount: Amount): Order {
    Order(name, user, Unset, TypeWithdrawal, amount)
  }

  lemma RowOfWithdrawal(name: string, user: string, amount: Amount)
    ensures OrderRow(NewWithdrawal(name, user, amount)) == Row(user, name, (), Some(amount.TotalKopecks()))
  {
  }

  /** The decoded body of a withdrawal request: an order number, and a sum as it is written. */
  datatype WithdrawRequest = WithdrawRequest(order: string, sum: string)

  /** The answer as it goes out: the first status written stands, an error writes its message besides. */
  class ResponseWriter {
    var code: Option<nat>
    var errorText: bool

    constructor ()
      ensures code == None && !errorText
    {
      code, errorText := None, false;
    }

    method WriteHeader(status: nat)
      modifies this
      ensures code == if old(code).Some? then old(code) else Some(status)
      ensures errorText == old(errorText)
    {
      if code == None {
        code := Some(status);
      }
    }

    method Error(status: nat)
      modifies this
      ensures code == if old(code).Some? then old(code) else Some(status)
      ensures errorText
    {
      WriteHeader(status);
      errorText := true;
    }
  }

  /** Answers one withdrawal request. `userID` is `None` for a user that could not be retrieved, `body` for a body that
      could not be decoded. The order number is not checked.

      400 is answered for a body or a sum that cannot be read, 402 exactly when the repository refuses for want of
      funds, 200 exactly when it succeeds; and a 200 goes out with an error message, as every other answer does. */
  method Withdraw(w: ResponseWriter, repo: OrderRepository, userID: Option<string>, body: Option<WithdrawRequest>,
                  weather: nat -> Faults)
    requires w.code == None
    modifies w, repo.pool
    ensures w.code.Some? && w.code.value in {200, 400, 402, 500} && w.errorText
    ensures w.code == Some(400) <==> userID.Some? && (body.None? || FromString(body.value.sum).Err?)
    ensures userID.None? || body.None? || FromString(body.value.sum).Err? ==>
              w.code.value in {400, 500} && repo.pool.Contents() == old(repo.pool.Contents())
    ensures userID.Some? && body.Some? && FromString(body.value.sum).Ok? ==>
              var o := NewWithdrawal(body.value.order, userID.value, FromString(body.value.sum).value);
              var (t, r) := CreateFrom(old(repo.pool.Contents()), o, weather, 0);
              && repo.pool.Contents() == t
              && w.code == Some(if r.Ok? then 200 else if r.error == InsufficientFunds then 402 else 500)
    ensures w.code == Some(200) && old(Valid(repo.pool.Contents())) ==>
              var total := FromString(body.value.sum).value.TotalKopecks();
              && repo.pool.accrued == old(repo.pool.accrued)
              && repo.pool.withdrawn ==
                 old(repo.pool.withdrawn) + [Row(userID.value, body.value.order, (), Some(total))]
              && Withdrawn(repo.pool.Contents(), userID.value) <= Accrued(repo.pool.Contents(), userID.value)
  {
    hide FromString, CreateFrom, Valid, Accrued, Withdrawn, Amount.TotalKopecks, Amount.ToPGNumeric, InsertWithdrawal;
    if userID == None {
      w.Error(500);
      return;
    }
    if body == None {
      w.Error(400);
      return;
    }
    var amount := FromString(body.value.sum);
    if amount.Err? {
      w.Error(400);
      return;
    }
    var o := NewWithdrawal(body.value.order, userID.value, amount.value);
    var r := repo.CreateOrder(o, weather);
    RowOfWithdrawal(body.value.order, userID.value, amount.value);
    if r.Ok? {
      w.WriteHeader(200);
    }
    if r == Err(InsufficientFunds) {
      w.Error(402);
      return;
    }
    w.Error(500);
  }

  /** Without faults: 200 exactly for an acceptable withdrawal that the balance covers, 402 exactly for a balance below
      what the wrapped addition comes to, 500 otherwise. */
  lemma WithdrawalCode(t: Tables, name: string, user: string, sum: Amount, weather: nat -> Faults)
    requires weather(0) == CLEAN
    ensures var r := CreateFrom(t, NewWithdrawal(name, user, sum), weather, 0).1;
            && (r.Ok? <==> && InsertWithdrawal(t, user, name, sum.TotalKopecks()).Ok?
                           && Summable(t.accrued, user) && Summable(t.withdrawn, user)
                           && Withdrawn(t, user) + sum.TotalKopecks() <= Accrued(t, user))
            && (r == Err(InsufficientFunds) <==>
                  && Summable(t.accrued, user) && Summable(t.withdrawn, user)
                  && Accrued(t, user) < Wrap(sum.TotalKopecks() + Withdrawn(t, user)))
  {
    var o := NewWithdrawal(name, user, sum);
    RowOfWithdrawal(name, user, sum);
    hide CreateFrom, Amount.TotalKopecks, Amount.ToPGNumeric, Wrap, Summable, Withdrawn, Accrued;
    CleanWithdrawal(t, o, weather);
    RefusedForFunds(t, o, weather);
  }
}
