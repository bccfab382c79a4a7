/** Withdrawals, order postings and status updates running side by side on one database, statement by statement.

    Each request is a session with a program counter. Statements of different sessions interleave freely; a read sees
    what is committed when it runs, and an inserted withdrawal becomes visible when its transaction commits. */
module Ledger {
  import opened Results
  import opened Amounts
  import opened Errors
  import opened Tables
  import opened OrderRepo

  datatype Request = Withdraw(order: Order) | Post(user: string, name: string)

  datatype Pc =
    | Beginning(counter: nat)
    | ReadingAccrued(counter: nat)
    | ReadingWithdrawn(counter: nat, accrued: Amount)
    | Deciding(counter: nat, accrued: Amount, withdrawn: Amount, mark: nat)
    | Staged(counter: nat, accrued: Amount, withdrawn: Amount, mark: nat)
    | Finished(result: Result<(), Error>)
    | Finding(counter: nat)
    | Creating(counter: nat)
    | Answered(code: nat)

  datatype Session = Session(request: Request, pc: Pc)

  /** `authors` and `posters` are the sessions behind the rows added to the two tables, in order; `shrunk` the users
      whose accruals an update has ever lowered; `overlapped` those who committed a withdrawal after another one of
      theirs had slipped in between its balance read and its commit. */
  datatype Ledger = Ledger(
    tables: Tables, base: Tables, sessions: seq<Session>, authors: seq<nat>, posters: seq<nat>,
    shrunk: set<string>, overlapped: set<string>)

  datatype Event =
    | Arrive(request: Request)
    | Begin(i: nat, fault: Option<Failure>)
    | ReadAccrued(i: nat, fault: Option<Failure>)
    | ReadWithdrawn(i: nat, fault: Option<Failure>)
    | Insert(i: nat, fault: Option<Failure>)
    | Commit(i: nat, reply: Reply)
    | Find(i: nat, fault: Option<Failure>)
    | Create(i: nat, reply: Reply)
    | Update(name: string, status: Status, amount: Option<int>)

  function Init(t: Tables): Ledger {
    Ledger(t, t, [], [], [], {}, {})
  }

  function Move(s: Ledger, i: nat, pc: Pc): Ledger
    requires i < |s.sessions|
  {
    s.(sessions := s.sessions[i := s.sessions[i].(pc := pc)])
  }

  /** Where a withdrawal goes after its attempt `counter` failed: to a fresh attempt, or to its end. */
  function AfterFailure(counter: nat, e: Error): Pc {
    if Reattempts(counter, e) then Beginning(counter + 1) else Finished(Err(e))
  }

  function Opening(r: Request): Pc {
    match r
    case Withdraw(_) => Beginning(0)
    case Post(_, _) => Finding(0)
  }

  /** The withdrawals of `user` committed since the table had `mark` rows. */
  function Since(t: Tables, mark: nat, user: string): int
    requires mark <= |t.withdrawn|
  {
    Sum(RowsOf(t.withdrawn[mark..], user))
  }

  /** Another transaction holds an uncommitted row of that name. */
  predicate NameHeld(s: Ledger, i: nat, name: string) {
    exists j :: 0 <= j < |s.sessions| && j != i && Holds(s.sessions[j], name)
  }

  predicate Holds(k: Session, name: string) {
    k.pc.Staged? && k.request.Withdraw? && k.request.order.id == name
  }

  predicate At(s: Ledger, i: nat, withdrawal: bool) {
    i < |s.sessions| && s.sessions[i].request.Withdraw? == withdrawal
  }

  predicate Enabled(s: Ledger, e: Event) {
    match e
    case Arrive(r) => r.Withdraw? ==> r.order.kind == TypeWithdrawal
    case Begin(i, _) => At(s, i, true) && s.sessions[i].pc.Beginning?
    case ReadAccrued(i, _) => At(s, i, true) && s.sessions[i].pc.ReadingAccrued?
    case ReadWithdrawn(i, _) => At(s, i, true) && s.sessions[i].pc.ReadingWithdrawn?
    case Insert(i, fault) =>
      // the unique index makes an insert wait while another transaction holds the same name
      && At(s, i, true) && s.sessions[i].pc.Deciding?
      && (Decide(s, s.sessions[i].request.order, s.sessions[i].pc, fault).Staged? ==>
            !NameHeld(s, i, s.sessions[i].request.order.id))
    case Commit(i, _) => At(s, i, true) && s.sessions[i].pc.Staged?
    case Find(i, _) => At(s, i, false) && s.sessions[i].pc.Finding?
    case Create(i, _) => At(s, i, false) && s.sessions[i].pc.Creating?
    case Update(name, status, amount) => UpdateStatus(s.tables, name, status, amount).Ok?
  }

  function Decide(s: Ledger, o: Order, pc: Pc, fault: Option<Failure>): Pc
    requires pc.Deciding?
  {
    if !Sufficient(pc.accrued, pc.withdrawn, o.amount) then AfterFailure(pc.counter, InsufficientFunds)
    else if fault.Some? then AfterFailure(pc.counter, fault.value)
    else match InsertWithdrawal(s.tables, o.user, o.id, o.amount.ToPGNumeric())
      case Err(e) => AfterFailure(pc.counter, e)
      case Ok(_) => Staged(pc.counter, pc.accrued, pc.withdrawn, pc.mark)
  }

  /** The row becomes visible. */
  function Publish(s: Ledger, i: nat, o: Order, mark: nat): Ledger
    requires i < |s.sessions|
  {
    s.(tables := s.tables.(withdrawn := s.tables.withdrawn + [OrderRow(o)]),
       authors := s.authors + [i],
       overlapped := if mark <= |s.tables.withdrawn| && Since(s.tables, mark, o.user) > 0 then s.overlapped + {o.user}
                     else s.overlapped)
  }

  /** What PostOrder does with the outcome of its lookup. */
  function AfterLookup(user: string, counter: nat, found: Result<string, Error>): Pc {
    match found
    case Ok(owner) => Answered(if owner == user then 200 else 409)
    case Err(e) =>
      if Reattempts(counter, e) then Finding(counter + 1)
      else if e.NotFound? then Creating(0)
      else Answered(500)
  }

  function AfterCreation(counter: nat, created: Result<(), Error>): Pc {
    match created
    case Ok(_) => Answered(202)
    case Err(e) => if Reattempts(counter, e) then Creating(counter + 1) else Answered(500)
  }

  function Apply(s: Ledger, e: Event): Ledger
    requires Enabled(s, e)
  {
    match e
    case Arrive(r) => s.(sessions := s.sessions + [Session(r, Opening(r))])
    case Begin(i, fault) =>
      var c := s.sessions[i].pc.counter;
      Move(s, i, if fault.Some? then AfterFailure(c, fault.value) else ReadingAccrued(c))
    case ReadAccrued(i, fault) =>
      var k := s.sessions[i];
      Move(s, i,
        match GetAmount(Query(fault, SumQuery(s.tables.accrued, k.request.order.user)))
        case Err(e) => AfterFailure(k.pc.counter, e)
        case Ok(a) => ReadingWithdrawn(k.pc.counter, a))
    case ReadWithdrawn(i, fault) =>
      var k := s.sessions[i];
      Move(s, i,
        match GetAmount(Query(fault, SumQuery(s.tables.withdrawn, k.request.order.user)))
        case Err(e) => AfterFailure(k.pc.counter, e)
        case Ok(a) => Deciding(k.pc.counter, k.pc.accrued, a, |s.tables.withdrawn|))
    case Insert(i, fault) =>
      Move(s, i, Decide(s, s.sessions[i].request.order, s.sessions[i].pc, fault))
    case Commit(i, reply) =>
      var k := s.sessions[i];
      (match reply
       case Delivered => Move(Publish(s, i, k.request.order, k.pc.mark), i, Finished(Ok(())))
       case LostBefore(e) => Move(s, i, AfterFailure(k.pc.counter, e))
       case LostAfter(e) => Move(Publish(s, i, k.request.order, k.pc.mark), i, AfterFailure(k.pc.counter, e)))
    case Find(i, fault) =>
      var k := s.sessions[i];
      Move(s, i, AfterLookup(k.request.user, k.pc.counter, FindAttempt(s.tables, k.request.name, fault)))
    case Create(i, reply) =>
      var k := s.sessions[i];
      var change := InsertAccrual(s.tables, k.request.user, k.request.name, New);
      var (t, r) := Settle(s.tables, change, reply);
      Move(s.(tables := t, posters := if change.Ok? && !reply.LostBefore? then s.posters + [i] else s.posters),
           i, AfterCreation(k.pc.counter, r))
    case Update(name, status, amount) =>
      var t := UpdateStatus(s.tables, name, status, amount).value.0;
      s.(tables := t, shrunk := s.shrunk + (set u | u in t.users && Accrued(t, u) < Accrued(s.tables, u)))
  }

  function Run(s: Ledger, es: seq<Event>): Option<Ledger>
    decreases |es|
  {
    if es == [] then Some(s)
    else if Enabled(s, es[0]) then Run(Apply(s, es[0]), es[1..])
    else None
  }

  // ---------------------------------------------------------------- invariants

  /** The accruals a session has read are still there, unless an update has lowered them. */
  predicate AccruedSeen(t: Tables, shrunk: set<string>, user: string, accrued: Amount) {
    user !in shrunk ==> accrued.TotalKopecks() <= Accrued(t, user)
  }

  /** A session's withdrawn amount is the sum over the rows that were there when it read. */
  predicate WithdrawnSeen(t: Tables, user: string, withdrawn: Amount, mark: nat) {
    && mark <= |t.withdrawn|
    && withdrawn.TotalKopecks() == Sum(RowsOf(t.withdrawn[..mark], user))
    && -NUMERIC_BOUND < withdrawn.TotalKopecks() < NUMERIC_BOUND
  }

  predicate Passed(t: Tables, o: Order, accrued: Amount, withdrawn: Amount) {
    && Sufficient(accrued, withdrawn, o.amount)
    && ValidRow(t.users, OrderRow(o), WITHDRAWAL_NAME_LIMIT)
    && !HasName(t.withdrawn, o.id)
  }

  predicate WithdrawalOk(t: Tables, shrunk: set<string>, o: Order, pc: Pc) {
    match pc
    case Beginning(_) => true
    case ReadingAccrued(_) => true
    case ReadingWithdrawn(_, a) => AccruedSeen(t, shrunk, o.user, a)
    case Deciding(_, a, w, mark) => AccruedSeen(t, shrunk, o.user, a) && WithdrawnSeen(t, o.user, w, mark)
    case Staged(_, a, w, mark) =>
      AccruedSeen(t, shrunk, o.user, a) && WithdrawnSeen(t, o.user, w, mark) && Passed(t, o, a, w)
    case Finished(_) => true
    case _ => false
  }

  predicate PostingOk(t: Tables, user: string, name: string, pc: Pc) {
    var owner := OwnerOf(t.accrued, name);
    match pc
    case Finding(_) => true
    case Creating(_) => true
    case Answered(code) =>
      if code == 200 || code == 202 then owner == Ok(user)
      else if code == 409 then owner.Ok? && owner.value != user
      else code == 500
    case _ => false
  }

  predicate SessionOk(t: Tables, shrunk: set<string>, k: Session) {
    match k.request
    case Withdraw(o) => WithdrawalOk(t, shrunk, o, k.pc)
    case Post(user, name) => PostingOk(t, user, name, k.pc)
  }

  ghost predicate OthersOk(s: Ledger, i: nat) {
    forall j :: 0 <= j < |s.sessions| && j != i ==> SessionOk(s.tables, s.shrunk, s.sessions[j])
  }

  ghost predicate SessionsOk(s: Ledger) {
    forall j :: 0 <= j < |s.sessions| ==> SessionOk(s.tables, s.shrunk, s.sessions[j])
  }

  ghost predicate HoldersApart(s: Ledger) {
    forall i, j, name :: 0 <= i < |s.sessions| && 0 <= j < |s.sessions| && i != j && Holds(s.sessions[i], name) ==>
      !Holds(s.sessions[j], name)
  }

  predicate IsAuthor(s: Ledger, k: nat)
    requires k < |s.authors|
  {
    && s.authors[k] < |s.sessions|
    && s.sessions[s.authors[k]].request.Withdraw?
    && |s.base.withdrawn| + k < |s.tables.withdrawn|
    && s.tables.withdrawn[|s.base.withdrawn| + k] == OrderRow(s.sessions[s.authors[k]].request.order)
  }

  predicate IsPoster(s: Ledger, k: nat)
    requires k < |s.posters|
  {
    && s.posters[k] < |s.sessions|
    && s.sessions[s.posters[k]].request.Post?
    && |s.base.accrued| + k < |s.tables.accrued|
    && s.tables.accrued[|s.base.accrued| + k].name == s.sessions[s.posters[k]].request.name
    && s.tables.accrued[|s.base.accrued| + k].user == s.sessions[s.posters[k]].request.user
  }

  /** Every added row has its session, and every reported success has its row. */
  ghost predicate Attributed(s: Ledger) {
    && |s.tables.withdrawn| == |s.base.withdrawn| + |s.authors|
    && |s.tables.accrued| == |s.base.accrued| + |s.posters|
    && s.base.withdrawn <= s.tables.withdrawn
    && (forall k :: 0 <= k < |s.authors| ==> IsAuthor(s, k))
    && (forall k :: 0 <= k < |s.posters| ==> IsPoster(s, k))
    && (forall i :: 0 <= i < |s.sessions| && s.sessions[i].pc == Finished(Ok(())) ==> i in s.authors)
    && (forall i :: 0 <= i < |s.sessions| && s.sessions[i].pc == Answered(202) ==> i in s.posters)
  }

  predicate Covered(t: Tables, user: string) {
    Withdrawn(t, user) <= Accrued(t, user)
  }

  /** Users covered at the start stay covered while their withdrawals do not overlap and their accruals do not
      shrink. */
  ghost predicate StillCovered(s: Ledger) {
    forall u :: Covered(s.base, u) && u !in s.shrunk && u !in s.overlapped ==> Covered(s.tables, u)
  }

  ghost predicate GlobalOk(s: Ledger) {
    Valid(s.tables) && s.tables.users == s.base.users && HoldersApart(s) && Attributed(s) && StillCovered(s)
  }

  ghost predicate Inv(s: Ledger) {
    GlobalOk(s) && SessionsOk(s)
  }

  // ---------------------------------------------------------------- sums over the tables

  lemma StrangerHasNothing(t: Tables, user: string)
    requires Valid(t) && user !in t.users
    ensures Accrued(t, user) == 0
  {
    RowsOfMembers(t.accrued, user);
    if RowsOf(t.accrued, user) != [] {
      assert RowsOf(t.accrued, user)[0] in RowsOf(t.accrued, user);
    }
  }

  // ---------------------------------------------------------------- what every event keeps

  /** Nothing that a session relies on is ever taken back. */
  ghost predicate Grows(t: Tables, shrunk: set<string>, t': Tables, shrunk': set<string>) {
    && t'.users == t.users && t.withdrawn <= t'.withdrawn && shrunk <= shrunk'
    && (forall u :: u !in shrunk' ==> Accrued(t, u) <= Accrued(t', u))
    && (forall n :: OwnerOf(t.accrued, n).Ok? ==> OwnerOf(t'.accrued, n) == OwnerOf(t.accrued, n))
  }

  lemma SessionStable(t: Tables, shrunk: set<string>, t': Tables, shrunk': set<string>, k: Session)
    requires Grows(t, shrunk, t', shrunk') && SessionOk(t, shrunk, k)
    requires k.pc.Staged? && k.request.Withdraw? ==> !HasName(t'.withdrawn, k.request.order.id)
    ensures SessionOk(t', shrunk', k)
  {
    hide Amount.TotalKopecks, Sufficient, Accrued, OwnerOf, RowsOf, Sum, HasName, ValidRow;
    if k.pc.Deciding? || k.pc.Staged? {
      assert k.pc.mark <= |t.withdrawn| ==> t'.withdrawn[..k.pc.mark] == t.withdrawn[..k.pc.mark];
    }
  }

  lemma MoveInv(s: Ledger, i: nat, pc: Pc)
    requires i < |s.sessions| && GlobalOk(s) && OthersOk(s, i)
    requires SessionOk(s.tables, s.shrunk, s.sessions[i].(pc := pc))
    requires pc.Staged? ==> s.sessions[i].request.Withdraw? && !NameHeld(s, i, s.sessions[i].request.order.id)
    requires pc == Finished(Ok(())) ==> i in s.authors
    requires pc == Answered(202) ==> i in s.posters
    ensures Inv(Move(s, i, pc))
  {
    hide Valid, SessionOk, Covered;
    var s' := Move(s, i, pc);
    assert forall j :: 0 <= j < |s.sessions| && j != i ==> s'.sessions[j] == s.sessions[j];
    assert forall j :: 0 <= j < |s.sessions| ==> s'.sessions[j].request == s.sessions[j].request;
    assert forall k :: 0 <= k < |s.authors| && IsAuthor(s, k) ==> IsAuthor(s', k);
    assert forall k :: 0 <= k < |s.posters| && IsPoster(s, k) ==> IsPoster(s', k);
    MoveHolders(s, i, pc);
  }

  lemma MoveHolders(s: Ledger, i: nat, pc: Pc)
    requires i < |s.sessions| && HoldersApart(s)
    requires pc.Staged? ==> s.sessions[i].request.Withdraw? && !NameHeld(s, i, s.sessions[i].request.order.id)
    ensures HoldersApart(Move(s, i, pc))
  {
  }

  // ---------------------------------------------------------------- each event keeps the invariant

  lemma ReadKeeps(s: Ledger, e: Event)
    requires Inv(s) && Enabled(s, e) && (e.Begin? || e.ReadAccrued? || e.ReadWithdrawn?)
    ensures Inv(Apply(s, e))
  {
    hide Amount.TotalKopecks, Accrued, Valid, Attributed, HoldersApart, StillCovered, SumQuery, IsRetryable, NameHeld;
    var i := e.i;
    var k := s.sessions[i];
    var user := k.request.order.user;
    ReadsAreSums(s.tables, user, e.fault);
    var t := s.tables;
    assert t.withdrawn[..|t.withdrawn|] == t.withdrawn;
    MoveInv(s, i, Apply(s, e).sessions[i].pc);
  }

  lemma ReadsAreSums(t: Tables, user: string, fault: Option<Failure>)
    ensures var a := GetAmount(Query(fault, SumQuery(t.accrued, user)));
            a.Ok? ==> a.value.TotalKopecks() == Accrued(t, user)
    ensures var w := GetAmount(Query(fault, SumQuery(t.withdrawn, user)));
            w.Ok? ==> && w.value.TotalKopecks() == Withdrawn(t, user)
                      && -NUMERIC_BOUND < w.value.TotalKopecks() < NUMERIC_BOUND
  {
    hide Amount.TotalKopecks, SumQuery, Summable;
    GetAmountOfSum(t.accrued, user);
    GetAmountOfSum(t.withdrawn, user);
  }

  lemma InsertKeeps(s: Ledger, e: Event)
    requires Inv(s) && Enabled(s, e) && e.Insert?
    ensures Inv(Apply(s, e))
  {
    hide Amount.TotalKopecks, Amount.ToPGNumeric, Sufficient, Accrued, Valid, Attributed, HoldersApart, StillCovered,
      IsRetryable, NameHeld, RowsOf, Sum, HasName;
    MoveInv(s, e.i, Apply(s, e).sessions[e.i].pc);
  }

  lemma OverlapBound(s: Ledger, i: nat, reply: Reply)
    requires Inv(s) && Enabled(s, Commit(i, reply)) && !reply.LostBefore?
    requires s.sessions[i].request.order.user !in s.shrunk
    ensures var (o, pc) := (s.sessions[i].request.order, s.sessions[i].pc);
            var t := Apply(s, Commit(i, reply)).tables;
            && pc.mark <= |s.tables.withdrawn|
            && t == s.tables.(withdrawn := s.tables.withdrawn + [OrderRow(o)])
            && Withdrawn(t, o.user) ==
               pc.withdrawn.TotalKopecks() + Since(s.tables, pc.mark, o.user) + o.amount.TotalKopecks()
            && Withdrawn(t, o.user) - Accrued(t, o.user) <= Since(s.tables, pc.mark, o.user)
  {
    hide Amount.TotalKopecks, Amount.ToPGNumeric, Sufficient, RowsOf, Sum;
    var k := s.sessions[i];
    var o, rows := k.request.order, s.tables.withdrawn;
    assert SessionOk(s.tables, s.shrunk, k);
    CheckCovers(k.pc.accrued, k.pc.withdrawn, o.amount);
    SumOfConcat(rows[..k.pc.mark], rows[k.pc.mark..], o.user);
    assert rows == rows[..k.pc.mark] + rows[k.pc.mark..];
    RowsOfAppend(rows, OrderRow(o), o.user);
  }

  lemma PublishGlobal(s: Ledger, i: nat, reply: Reply)
    requires Inv(s) && Enabled(s, Commit(i, reply)) && !reply.LostBefore?
    ensures GlobalOk(Publish(s, i, s.sessions[i].request.order, s.sessions[i].pc.mark))
  {
    hide Amount.TotalKopecks, Amount.ToPGNumeric, Sufficient, RowsOf, Sum, Accrued, Withdrawn;
    var k := s.sessions[i];
    var o := k.request.order;
    var s' := Publish(s, i, o, k.pc.mark);
    assert SessionOk(s.tables, s.shrunk, k);
    assert Valid(s'.tables);
    PublishAttributed(s, i, k.pc.mark);
    forall u | Covered(s.base, u) && u !in s'.shrunk && u !in s'.overlapped ensures Covered(s'.tables, u) {
      if u == o.user {
        OverlapBound(s, i, reply);
      } else {
        OtherUserUntouched(s.tables, o, u);
      }
    }
  }

  lemma PublishAttributed(s: Ledger, i: nat, mark: nat)
    requires Attributed(s) && i < |s.sessions| && s.sessions[i].request.Withdraw?
    ensures Attributed(Publish(s, i, s.sessions[i].request.order, mark))
  {
    hide Since, OrderRow;
    var s' := Publish(s, i, s.sessions[i].request.order, mark);
    forall k | 0 <= k < |s'.authors| ensures IsAuthor(s', k) {
      assert k < |s.authors| ==> IsAuthor(s, k);
    }
    assert forall k :: 0 <= k < |s.posters| && IsPoster(s, k) ==> IsPoster(s', k);
  }

  lemma OtherUserUntouched(t: Tables, o: Order, user: string)
    requires user != o.user
    ensures var t' := t.(withdrawn := t.withdrawn + [OrderRow(o)]);
            Withdrawn(t', user) == Withdrawn(t, user) && Accrued(t', user) == Accrued(t, user)
  {
    RowsOfAppend(t.withdrawn, OrderRow(o), user);
  }

  lemma PublishGrows(s: Ledger, i: nat, mark: nat)
    requires i < |s.sessions| && s.sessions[i].request.Withdraw?
    ensures Grows(s.tables, s.shrunk, Publish(s, i, s.sessions[i].request.order, mark).tables, s.shrunk)
  {
  }

  lemma CommitKeeps(s: Ledger, e: Event)
    requires Inv(s) && Enabled(s, e) && e.Commit?
    ensures Inv(Apply(s, e))
  {
    hide GlobalOk, Attributed, HoldersApart, StillCovered, Valid, Sufficient, Accrued, RowsOf, Sum, IsRetryable;
    var k := s.sessions[e.i];
    var o := k.request.order;
    var s' := if e.reply.LostBefore? then s else Publish(s, e.i, o, k.pc.mark);
    var pc := Apply(s, e).sessions[e.i].pc;
    if !e.reply.LostBefore? {
      PublishGlobal(s, e.i, e.reply);
      PublishGrows(s, e.i, k.pc.mark);
      forall j | 0 <= j < |s.sessions| && j != e.i ensures SessionOk(s'.tables, s'.shrunk, s.sessions[j]) {
        HoldersAreApart(s, e.i, j);
        SessionStable(s.tables, s.shrunk, s'.tables, s'.shrunk, s.sessions[j]);
      }
    }
    assert SessionOk(s'.tables, s'.shrunk, k.(pc := pc));
    MoveInv(s', e.i, pc);
  }

  lemma HoldersAreApart(s: Ledger, i: nat, j: nat)
    requires GlobalOk(s) && i < |s.sessions| && j < |s.sessions| && i != j
    requires s.sessions[i].pc.Staged? && s.sessions[i].request.Withdraw?
    ensures s.sessions[j].pc.Staged? && s.sessions[j].request.Withdraw? ==>
              s.sessions[j].request.order.id != s.sessions[i].request.order.id
  {
    assert Holds(s.sessions[i], s.sessions[i].request.order.id);
  }

  lemma FindKeeps(s: Ledger, e: Event)
    requires Inv(s) && Enabled(s, e) && e.Find?
    ensures Inv(Apply(s, e))
  {
    hide Valid, Attributed, HoldersApart, StillCovered, IsRetryable, NameHeld, OwnerOf;
    MoveInv(s, e.i, Apply(s, e).sessions[e.i].pc);
  }

  lemma {:induction false} OwnerOfAppend(rows: seq<AccrualRow>, r: AccrualRow, name: string)
    ensures OwnerOf(rows + [r], name) ==
            if HasName(rows, name) then OwnerOf(rows, name) else if r.name == name then Ok(r.user) else Err(NoRows)
  {
    OwnerOfRow(rows, name);
    if rows == [] {
      assert [r][1..] == [];
    } else {
      OwnerOfAppend(rows[1..], r, name);
      OwnerOfRow(rows[1..], name);
      assert (rows + [r])[1..] == rows[1..] + [r];
    }
  }

  lemma PostedGlobal(s: Ledger, i: nat, t: Tables)
    requires Inv(s) && At(s, i, false)
    requires InsertAccrual(s.tables, s.sessions[i].request.user, s.sessions[i].request.name, New) == Ok(t)
    ensures GlobalOk(s.(tables := t, posters := s.posters + [i]))
    ensures Grows(s.tables, s.shrunk, t, s.shrunk) && t.withdrawn == s.tables.withdrawn
    ensures OwnerOf(t.accrued, s.sessions[i].request.name) == Ok(s.sessions[i].request.user)
  {
    hide RowsOf, Sum, OwnerOf;
    var k := s.sessions[i];
    var r := Row(k.request.user, k.request.name, New, Some(0));
    var s' := s.(tables := t, posters := s.posters + [i]);
    InsertAccrualValid(s.tables, k.request.user, k.request.name, New);
    forall u ensures Accrued(t, u) == Accrued(s.tables, u) && Withdrawn(t, u) == Withdrawn(s.tables, u) {
      RowsOfAppend(s.tables.accrued, r, u);
    }
    forall n ensures OwnerOf(s.tables.accrued, n).Ok? ==> OwnerOf(t.accrued, n) == OwnerOf(s.tables.accrued, n) {
      OwnerOfAppend(s.tables.accrued, r, n);
      OwnerOfRow(s.tables.accrued, n);
    }
    OwnerOfAppend(s.tables.accrued, r, k.request.name);
    assert forall m :: 0 <= m < |s.authors| && IsAuthor(s, m) ==> IsAuthor(s', m);
    forall m | 0 <= m < |s'.posters| ensures IsPoster(s', m) {
      assert m < |s.posters| ==> IsPoster(s, m);
    }
  }

  lemma CreateKeeps(s: Ledger, e: Event)
    requires Inv(s) && Enabled(s, e) && e.Create?
    ensures Inv(Apply(s, e))
  {
    hide GlobalOk, Valid, Attributed, HoldersApart, StillCovered, IsRetryable, OwnerOf, InsertAccrual, HasName;
    var k := s.sessions[e.i];
    var change := InsertAccrual(s.tables, k.request.user, k.request.name, New);
    var pc := Apply(s, e).sessions[e.i].pc;
    if change.Ok? && !e.reply.LostBefore? {
      var s' := s.(tables := change.value, posters := s.posters + [e.i]);
      PostedGlobal(s, e.i, change.value);
      forall j | 0 <= j < |s.sessions| && j != e.i ensures SessionOk(s'.tables, s'.shrunk, s.sessions[j]) {
        SessionStable(s.tables, s.shrunk, s'.tables, s'.shrunk, s.sessions[j]);
      }
      MoveInv(s', e.i, pc);
    } else {
      MoveInv(s, e.i, pc);
    }
  }

  lemma {:induction false} OwnerOfRestamp(rows: seq<AccrualRow>, name: string, status: Status, amount: Option<int>,
    n: string)
    ensures OwnerOf(Restamp(rows, name, status, amount), n) == OwnerOf(rows, n)
  {
    if rows != [] {
      OwnerOfRestamp(rows[1..], name, status, amount, n);
    }
  }

  lemma UpdateGrows(s: Ledger, e: Event)
    requires Inv(s) && Enabled(s, e) && e.Update?
    ensures var s' := Apply(s, e);
            && Grows(s.tables, s.shrunk, s'.tables, s'.shrunk) && Valid(s'.tables)
            && s'.tables.withdrawn == s.tables.withdrawn && s'.sessions == s.sessions
  {
    hide RowsOf, Sum;
    var s' := Apply(s, e);
    UpdateStatusValid(s.tables, e.name, e.status, e.amount);
    forall u | u !in s'.shrunk ensures Accrued(s.tables, u) <= Accrued(s'.tables, u) {
      if u !in s.tables.users {
        StrangerHasNothing(s.tables, u);
        StrangerHasNothing(s'.tables, u);
      }
    }
    forall n ensures OwnerOf(s'.tables.accrued, n) == OwnerOf(s.tables.accrued, n) {
      OwnerOfRestamp(s.tables.accrued, e.name, e.status, e.amount, n);
    }
  }

  lemma UpdateKeeps(s: Ledger, e: Event)
    requires Inv(s) && Enabled(s, e) && e.Update?
    ensures Inv(Apply(s, e))
  {
    hide Valid, RowsOf, Sum, SessionOk, Attributed, StillCovered, Accrued, OwnerOf;
    var s' := Apply(s, e);
    UpdateGrows(s, e);
    forall j | 0 <= j < |s.sessions| ensures SessionOk(s'.tables, s'.shrunk, s.sessions[j]) {
      StagedNameIsNew(s.tables, s.shrunk, s.sessions[j]);
      SessionStable(s.tables, s.shrunk, s'.tables, s'.shrunk, s.sessions[j]);
    }
    UpdateAttributed(s, e);
    UpdateStillCovered(s, e);
  }

  lemma UpdateKeepsNames(t: Tables, e: Event)
    requires e.Update? && UpdateStatus(t, e.name, e.status, e.amount).Ok?
    ensures var t' := UpdateStatus(t, e.name, e.status, e.amount).value.0;
            && t'.withdrawn == t.withdrawn && |t'.accrued| == |t.accrued|
            && forall i :: 0 <= i < |t.accrued| ==>
                 t'.accrued[i].name == t.accrued[i].name && t'.accrued[i].user == t.accrued[i].user
  {
  }

  lemma UpdateAttributed(s: Ledger, e: Event)
    requires Attributed(s) && Enabled(s, e) && e.Update?
    ensures Attributed(Apply(s, e))
  {
    hide Accrued, UpdateStatus, OrderRow;
    var s' := Apply(s, e);
    UpdateKeepsNames(s.tables, e);
    forall m | 0 <= m < |s.posters| ensures IsPoster(s', m) {
      assert IsPoster(s, m);
    }
    forall m | 0 <= m < |s.authors| ensures IsAuthor(s', m) {
      assert IsAuthor(s, m);
    }
  }

  lemma UpdateStillCovered(s: Ledger, e: Event)
    requires Inv(s) && Enabled(s, e) && e.Update?
    ensures StillCovered(Apply(s, e))
  {
    hide Valid, SessionsOk, HoldersApart, Attributed, OwnerOf, RowsOf, Sum, UpdateStatus;
    var s' := Apply(s, e);
    UpdateGrows(s, e);
    forall u | Covered(s.base, u) && u !in s'.shrunk && u !in s'.overlapped ensures Covered(s'.tables, u) {
      assert Accrued(s.tables, u) <= Accrued(s'.tables, u);
    }
  }

  lemma StagedNameIsNew(t: Tables, shrunk: set<string>, k: Session)
    requires SessionOk(t, shrunk, k)
    ensures k.pc.Staged? && k.request.Withdraw? ==> !HasName(t.withdrawn, k.request.order.id)
  {
  }

  lemma ArriveKeeps(s: Ledger, e: Event)
    requires Inv(s) && Enabled(s, e) && e.Arrive?
    ensures Inv(Apply(s, e))
  {
    hide Valid, Accrued, Withdrawn, OwnerOf;
    var s' := Apply(s, e);
    assert forall m :: 0 <= m < |s.authors| && IsAuthor(s, m) ==> IsAuthor(s', m);
    assert forall m :: 0 <= m < |s.posters| && IsPoster(s, m) ==> IsPoster(s', m);
  }

  lemma EventKeeps(s: Ledger, e: Event)
    requires Inv(s) && Enabled(s, e)
    ensures Inv(Apply(s, e))
  {
    hide *;
    match e {
      case Arrive(_) => ArriveKeeps(s, e);
      case Begin(_, _) => ReadKeeps(s, e);
      case ReadAccrued(_, _) => ReadKeeps(s, e);
      case ReadWithdrawn(_, _) => ReadKeeps(s, e);
      case Insert(_, _) => InsertKeeps(s, e);
      case Commit(_, _) => CommitKeeps(s, e);
      case Find(_, _) => FindKeeps(s, e);
      case Create(_, _) => CreateKeeps(s, e);
      case Update(_, _, _) => UpdateKeeps(s, e);
    }
  }

  // ---------------------------------------------------------------- whole runs

  lemma {:induction false} RunKeeps(s: Ledger, es: seq<Event>)
    requires Inv(s) && Run(s, es).Some?
    ensures Inv(Run(s, es).value)
    decreases |es|
  {
    hide Inv, Enabled, Apply;
    if es != [] {
      EventKeeps(s, es[0]);
      RunKeeps(Apply(s, es[0]), es[1..]);
    }
  }

  /** `s` is reached from the tables `t` by some run. */
  ghost predicate Reachable(t: Tables, s: Ledger) {
    exists es :: Run(Init(t), es) == Some(s)
  }

  lemma ReachableInv(t: Tables, s: Ledger)
    requires Valid(t) && Reachable(t, s)
    ensures Inv(s)
  {
    var es :| Run(Init(t), es) == Some(s);
    RunKeeps(Init(t), es);
  }

  lemma {:induction false} RunBase(s: Ledger, es: seq<Event>)
    requires Run(s, es).Some?
    ensures Run(s, es).value.base == s.base
    decreases |es|
  {
    if es != [] {
      assert Apply(s, es[0]).base == s.base;
      RunBase(Apply(s, es[0]), es[1..]);
    }
  }

  /** No overdraft: a user covered at the start is covered in every reachable state, as long as no update has lowered
      the user's accruals and no two of the user's withdrawals have overlapped. */
  lemma NoOverdraft(t: Tables, s: Ledger, user: string)
    requires Valid(t) && Reachable(t, s) && Covered(t, user)
    requires user !in s.shrunk && user !in s.overlapped
    ensures Withdrawn(s.tables, user) <= Accrued(s.tables, user)
  {
    ReachableInv(t, s);
    var es :| Run(Init(t), es) == Some(s);
    RunBase(Init(t), es);
  }

  /** A committed withdrawal leaves its user owing at most what other withdrawals of the same user took between its
      balance read and its commit, provided no update has lowered the user's accruals. */
  lemma OverlappingWithdrawals(t: Tables, s: Ledger, i: nat, reply: Reply)
    requires Valid(t) && Reachable(t, s) && Enabled(s, Commit(i, reply)) && !reply.LostBefore?
    requires s.sessions[i].request.order.user !in s.shrunk
    ensures var (o, mark) := (s.sessions[i].request.order, s.sessions[i].pc.mark);
            var after := Apply(s, Commit(i, reply)).tables;
            && mark <= |s.tables.withdrawn|
            && after == s.tables.(withdrawn := s.tables.withdrawn + [OrderRow(o)])
            && Withdrawn(after, o.user) - Accrued(after, o.user) <= Since(s.tables, mark, o.user)
  {
    ReachableInv(t, s);
    OverlapBound(s, i, reply);
  }

  lemma {:induction false} RunThen(s: Ledger, es: seq<Event>, e: Event)
    requires Run(s, es).Some? && Enabled(Run(s, es).value, e)
    ensures Run(s, es + [e]) == Some(Apply(Run(s, es).value, e))
    decreases |es|
  {
    hide Enabled, Apply;
    if es == [] {
      assert [e][1..] == [];
    } else {
      assert (es + [e])[1..] == es[1..] + [e];
      RunThen(Apply(s, es[0]), es[1..], e);
    }
  }

  lemma Reaches(t: Tables, s: Ledger, e: Event)
    requires Reachable(t, s) && Enabled(s, e)
    ensures Reachable(t, Apply(s, e))
  {
    var es :| Run(Init(t), es) == Some(s);
    RunThen(Init(t), es, e);
  }

  /** At most once: an order name has at most one withdrawal row, and a session adds at most one row however often it
      retries. */
  lemma AtMostOneRow(t: Tables, s: Ledger)
    requires Valid(t) && Reachable(t, s)
    ensures forall i, j :: 0 <= i < j < |s.tables.withdrawn| ==>
      s.tables.withdrawn[i].name != s.tables.withdrawn[j].name
    ensures forall i, j :: 0 <= i < j < |s.authors| ==> s.authors[i] != s.authors[j]
  {
    ReachableInv(t, s);
    forall i, j | 0 <= i < j < |s.authors| ensures s.authors[i] != s.authors[j] {
      assert IsAuthor(s, i) && IsAuthor(s, j);
    }
  }

  /** A withdrawal reported as done has exactly one row of its name, and that row has its user and its amount. */
  lemma ReportedWithdrawal(t: Tables, s: Ledger, i: nat)
    requires Valid(t) && Reachable(t, s) && i < |s.sessions|
    requires s.sessions[i].request.Withdraw? && s.sessions[i].pc == Finished(Ok(()))
    ensures var o := s.sessions[i].request.order;
            && OrderRow(o) in s.tables.withdrawn
            && forall r :: r in s.tables.withdrawn && r.name == o.id ==> r == OrderRow(o)
  {
    ReachableInv(t, s);
    var k :| 0 <= k < |s.authors| && s.authors[k] == i;
    assert IsAuthor(s, k);
  }

  /** Session `i` was told 202 for the order number `name`. */
  predicate Accepted(s: Ledger, i: nat, name: string) {
    i < |s.sessions| && s.sessions[i].pc == Answered(202) && s.sessions[i].request.Post?
    && s.sessions[i].request.name == name
  }

  /** Order ownership: 200 and 202 go only to the stored owner and 409 only to others, whatever the lookups failed
      with; and two different sessions are never both answered 202 for one order number. */
  lemma Ownership(t: Tables, s: Ledger)
    requires Valid(t) && Reachable(t, s)
    ensures forall i :: 0 <= i < |s.sessions| && s.sessions[i].request.Post? && s.sessions[i].pc.Answered? ==>
              var (r, code) := (s.sessions[i].request, s.sessions[i].pc.code);
              var owner := OwnerOf(s.tables.accrued, r.name);
              && code in {200, 202, 409, 500}
              && (code == 200 || code == 202 ==> owner == Ok(r.user))
              && (code == 409 ==> owner.Ok? && owner.value != r.user)
    ensures forall i, j, name :: Accepted(s, i, name) && Accepted(s, j, name) ==> i == j
  {
    hide OwnerOf;
    ReachableInv(t, s);
    forall i | 0 <= i < |s.sessions| && s.sessions[i].request.Post?
      ensures PostingOk(s.tables, s.sessions[i].request.user, s.sessions[i].request.name, s.sessions[i].pc) {
      assert SessionOk(s.tables, s.shrunk, s.sessions[i]);
    }
    forall i, j, name | Accepted(s, i, name) && Accepted(s, j, name) ensures i == j {
      var k :| 0 <= k < |s.posters| && s.posters[k] == i;
      var m :| 0 <= m < |s.posters| && s.posters[m] == j;
      assert IsPoster(s, k) && IsPoster(s, m);
    }
  }

  lemma EventKeepsOwner(s: Ledger, e: Event, name: string)
    requires Inv(s) && Enabled(s, e) && OwnerOf(s.tables.accrued, name).Ok?
    ensures OwnerOf(Apply(s, e).tables.accrued, name) == OwnerOf(s.tables.accrued, name)
  {
    hide OwnerOf, Valid, SessionsOk, HoldersApart, StillCovered, InsertAccrual, Attributed;
    if e.Update? {
      UpdateGrows(s, e);
    } else if e.Create? {
      var k := s.sessions[e.i];
      var change := InsertAccrual(s.tables, k.request.user, k.request.name, New);
      if change.Ok? {
        PostedGlobal(s, e.i, change.value);
      }
    }
  }

  /** The owner of an order never changes, from any reachable state on. */
  lemma {:induction false} OwnerIsForever(s: Ledger, es: seq<Event>, name: string)
    requires Inv(s) && OwnerOf(s.tables.accrued, name).Ok? && Run(s, es).Some?
    ensures OwnerOf(Run(s, es).value.tables.accrued, name) == OwnerOf(s.tables.accrued, name)
    decreases |es|
  {
    hide Inv, Enabled, Apply, OwnerOf;
    if es != [] {
      EventKeeps(s, es[0]);
      EventKeepsOwner(s, es[0], name);
      OwnerIsForever(Apply(s, es[0]), es[1..], name);
    }
  }
}
