# A verified model of the loyalty service

The service takes order numbers from users, asks an accrual calculator for the points each order earns, and lets users
spend their points on withdrawals. This project models its three hardest parts and proves what they promise.

**Amounts** (`amount.dfy`, over `goint.dfy`). Money as two int64 fields, roubles and kopecks, with the printer, the
parser, and the conversion to and from a numeric column. All arithmetic wraps, divides and takes remainders as Go does.

**The ledger.** `tables.dfy` holds the two order tables, their constraints, and each SQL statement, as a specification
function and as a method of the class `Database`. `errors.dfy` has the retry rule. `order_repo.dfy` is the order
repository: every attempt meets faults of the caller's choosing, a commit may take effect and yet be reported as failed,
and attempts are repeated as the code repeats them; `outages.dfy` says how long an outage that survives. `handlers.dfy`
has the handlers that take order numbers and withdrawals. `ledger.dfy` puts any number of withdrawals, postings and
status updates side by side, each a session with a program counter, and interleaves their statements;
`ledger_bounds.dfy` says how far withdrawals that overlap can go, `ledger_exact.dfy` exactly which ones are safe, and
`ledger_solo.dfy` that a session left alone does what its request does and that nothing deadlocks.

**The accrual pipeline.** `semaphore.dfy` is the channel semaphore with its resize guard, `requestwatcher.dfy` the
request counter, `worker.dfy` the loop of one worker left alone. `pipeline.dfy` is the whole pool as a labelled
transition system: any number of workers, the agent's control loop, the semaphore's channels, the WaitGroup, the cancel
flags, and the request watcher's goroutines. Client answers, timeouts, timers and every choice of a `select` are open.
Its invariants are in `pipeline_life.dfy` (who is alive, what is closed, where the tokens are), `pipeline_jobs.dfy`
(jobs and requests), `pipeline_rates.dfy` (resize guard, announcements, cut-off), `pipeline_limits.dfy` (limits in
force, who empties the request channel, when the agent halts) and `pipeline_crew.dfy` (the workers of the current
generation); `pipeline_theorems.dfy` states what follows for every reachable state and every run. `pool_worker.dfy`
compares a worker of the pool with the loop alone. `pipeline_drive.dfy` builds runs. `pipeline_stuck.dfy` takes the
three places where the agent waits for others: its workers after an announcement, its workers at shutdown, the resize
guard. For each it gives the exact condition under which no run gets it further, and a run from the start that gets it
there. `pipeline_free.dfy` gives the exact condition under which a worker will be free again, `pipeline_rest.dfy` brings
the request watcher to rest, and `pipeline_door.dfy` compares acquiring with the semaphore alone. `watcher.dfy` joins
the pipeline to the accrual table; `watcher_turns.dfy` is about the order of dispatches and the number of attempts,
`watcher_outages.dfy` about the attempts against the repository's updates; `watcher_final.dfy`, `watcher_falls.dfy` and
`watcher_lost.dfy` are about final orders, their status and their points.

## Where the code and its documentation part

- The specification (`SPECIFICATION.md:365`) calls `INVALID` and `PROCESSED` final. The update statement has no
  condition, so they are not. The mark of a dispatch can come after the response to it and wipe out the points
  (`LostAccruals.LateMarkLosesAccrual`), and a second dispatch can be answered otherwise
  (`LostAccruals.LateResponseReplaces`): the order is then in progress again, or it stays processed and loses its points
  (`LostAccruals.LostToASecondAnswer`). `FinalFalls.FinalStandsExactly` gives the exact condition, once for the status
  and once for the whole row. Theorems that need accruals not to shrink say so in their hypotheses (`shrunk`).
- The specification (`SPECIFICATION.md:265`) refuses a withdrawal for which the account has not enough. Withdrawals of
  one user that overlap can all succeed without enough: `LedgerBounds.OverlapOverdraws`. Those payable alone are safe
  exactly when the balance covers their sum (`LedgerBounds.CoveredExactly`). Those that only later accruals would pay
  for are safe exactly when it does, or when at most one of them takes anything (`LedgerExact.AcceptableExactly`).
  `Ledger.OverlappingWithdrawals` bounds the shortfall of each, and `Ledger.NoOverdraft` rules it out where they do not
  overlap.
- The handler of a withdrawal answers 200 and then goes on to write an error text (`Handlers.Withdraw`), and it never
  answers the 422 that the specification (`SPECIFICATION.md:266`) has for a wrong order number. Its 402 depends on an
  int64 addition: a sum so large that it wraps around is not refused for want of funds (`OrderRepo.RefusedForFunds`).
- The parser gives the fraction a sign of its own, so "-1.50" is read as minus fifty kopecks:
  `Amounts.MinusSignDropsFraction`, with the exact condition in `Amounts.DecimalValue`.
- The printer pads with `%02d`, where a minus sign takes up a place: an amount whose kopeck field is below -9 prints as
  a string that the parser refuses. `Amounts.RoundTrip` gives the exact set.
- The semaphore never counts an acquire, only releases, in a uint64. A resize therefore ends only when the number of
  releases is a multiple of 2^64 (`PipelineStuck.ResizeBlocks`), and the first one never does
  (`PipelineStuck.FirstResizeBlocks`). Its block check never refuses anyone, since no worker is alive while it blocks
  (`PipelineDoor.NeverRefusedAtTheDoor`).
- A worker announces its 429 on a channel that the agent does not read while it waits for the workers, so an
  announcement made then blocks the agent for good (`PipelineStuck.AnnouncerBlocks`). Two workers that meet a 429
  together will do (`PipelineStuck.FirstAnnouncementBlocks`), and so will a single 429 and a shutdown
  (`PipelineStuck.ShutdownBlocks`).
- A request watcher is stopped and started without waiting for its goroutine. Two of them at once can lose a request
  (`RequestWatching.OverlapLosesOne`), or carry the old count over the restart (`RequestWatching.LateStoreBreaksCount`).

## Assumptions

- A numeric(12,2) value is read with exponent -2, so it is a whole number of kopecks. Strings are sequences of bytes.
- Transactions run at the database's default isolation: a read sees what is committed when it runs, an insert waits
  while another transaction holds the same unique key, and nothing locks between the balance reads and the insert.
- A statement that fails with its connection has either run or not run, and a commit likewise (`Reply`). Fault
  sequences are a parameter, called `weather`.
- The request channel has room for at least one request, as in `internal/service/agent/agent.go:44`, where a result
  needs it.
- The watcher and the agent share one context (`internal/service/service.go:58-71`): once it is done, no query of the
  watcher runs.
- A client call begun under a done context fails, and not with "no content". The announced rate, the measured rate and
  the answers of the client are arbitrary otherwise.
- The Luhn check, the test for a digit and the retrieval of the user are parameters of `Handlers.PostOrder`, the user
  and the decoded body parameters of `Handlers.Withdraw`.

## Model

| member | source | states |
|---|---|---|
| Amounts.RoundTrip | internal/model/amount.go:27-68 | for every amount, printing then parsing returns it if its kopeck field is in -9..99, and is refused as a precision error otherwise |
| Amounts.KopeckPart | internal/model/amount.go:27-32 | what `%02d` prints for a nonzero kopeck field parses back to it, and is two characters wide exactly for -9..99 |
| Amounts.FormatParses | internal/model/amount.go:27-32 | what `%d` prints for an int64 parses back to it and holds no dot |
| Amounts.Image | internal/model/amount.go:36-68 | an amount is the result of parsing some string exactly when its kopeck field is in -9..99: the image is the round-trip set |
| Amounts.ParsePrintParse | internal/model/amount.go:27-68 | for every accepted string, parse-print-parse equals parse |
| Amounts.AcceptedLanguage | internal/model/amount.go:36-68 | the parser succeeds exactly on an optionally signed int64 decimal, alone or followed by a dot and one of d, dd, +d, -d |
| Amounts.SpelledParse | internal/model/amount.go:36-68 | and then yields the amount of those roubles and those kopecks, one digit counting tens |
| Amounts.DecimalValue | internal/model/amount.go:36-80 | the total is 100 times the number written if and only if that fits int64 and no minus sign meets a nonzero fraction |
| Amounts.MinusSignDropsFraction | internal/model/amount.go:36-80 | the witness that a minus sign fails: "-1.50" is accepted with a total of -50 |
| Amounts.NewAmountTotal | internal/model/amount.go:20-25 | carrying kopecks into roubles keeps the total for all int64 arguments, wrap-around included, and leaves kopecks in -99..99 with the argument's sign |
| Amounts.NumericTotal | internal/model/amount.go:82-93 | reading a numeric keeps its total and gives both fields one sign |
| Amounts.NumericRoundTrip | internal/model/amount.go:70-93 | writing and reading a numeric keeps every total, and keeps the amount itself exactly when nothing wraps, kopecks are below a rouble and the signs agree |
| Amounts.Split | internal/model/amount.go:38-42 | the parts hold no dot, and joined with dots they give the string again, however many they are |
| Amounts.SplitJoin | internal/model/amount.go:38-42 | and joining any parts without dots and splitting gives the parts again |
| Amounts.Printed | internal/model/amount.go:27-32 | kopecks of 1 to 99 print as a dot and two digits, zero kopecks as nothing |
| Amounts.PrintedWhole | internal/model/amount.go:27-32 | roubles print as their digits without a leading zero, after a minus sign if negative |
| Amounts.Characters | internal/model/amount.go:44-56 | digits are the ten characters 0 to 9, each at its value, and signs are + and - |
| Errors.RetryExactly | internal/repo/repo.go:66-99 | whatever the query, its outcome is that of the first attempt, of four at most, that does not fail with one of seven SQLSTATE codes, or of the fourth, on what the attempts before have left |
| Errors.SomeDecides | internal/repo/repo.go:66-82 | and there is such an attempt |
| Errors.TransientIsRetryable | internal/repo/repo.go:84-99 | the codes that are retried are exactly 08000, 08001, 08003, 08004, 08006, 08007 and 57P03 |
| Tables.Complaint | internal/service/dbmanager/migrations/00001_init.up.sql:16-48 | a row is refused, never with a retryable code, exactly when it breaks a length, range, sign, blank-name or user constraint |
| Tables.AccrualAccepted | internal/service/dbmanager/migrations/00001_init.up.sql:16-43 | an order number goes in exactly for a known user, at most 36 characters not all blank, an existing status and a new number, and then without points |
| Tables.WithdrawalAccepted | internal/service/dbmanager/migrations/00001_init.up.sql:24-48 | a withdrawal exactly for a known user, at most 24 characters not all blank, a new number, and an amount from 0 to below 10^10 roubles |
| Tables.RefusalsExplained | internal/service/dbmanager/migrations/00001_init.up.sql:16-48 | each of the codes 22001, 22003, 23502, 23503, 23505 and 23514 says what is wrong with the row |
| Tables.UpdateRefused | internal/repo/internal/db/orders.sql.go:208-226 | an update is refused exactly for an order that exists and a status that does not or an amount the column does not take, with code 23502, 22003 or 23514 |
| Tables.InsertAccrualValid | internal/repo/internal/db/orders.sql.go:15-21 | an accepted accrual insert keeps the schema |
| Tables.InsertWithdrawalValid | internal/repo/internal/db/orders.sql.go:40-43 | an accepted withdrawal insert keeps the schema, and its amount is in 0 to 10^10 roubles |
| Tables.UpdateStatusValid | internal/repo/internal/db/orders.sql.go:208-216 | an accepted update keeps the schema, unique names included |
| Tables.Restamp | internal/repo/internal/db/orders.sql.go:208-216 | the update stamps status and amount of the rows of that name, whatever their status was, and no other row |
| Tables.OwnerOfRow | internal/repo/internal/db/orders.sql.go:62-72 | a lookup succeeds exactly when the name is there, and then with the owner of its row |
| Tables.RowsOfMembers | internal/repo/internal/db/orders.sql.go:102-177 | a listing has the user's rows and no others |
| Tables.RowsOfCounts | internal/repo/internal/db/orders.sql.go:102-177 | each of them as often as it is in the table |
| Tables.RowsOfConcat | internal/repo/internal/db/orders.sql.go:102-177 | and in the order of the table |
| Tables.SelectableExactly | internal/repo/internal/db/orders.sql.go:179-206 | a selection names exactly the orders that are NEW or PROCESSING |
| Tables.ScanRows | internal/repo/internal/db/orders.sql.go:121-144 | the scan loop returns the rows of one user, in order |
| Tables.SumRows | internal/repo/internal/db/orders.sql.go:74-100 | no rows is an error, only NULLs sum to NULL, a sum beyond decimal(12,2) is out of range, any other sum is returned |
| Tables.Database.CreateAccrual | internal/repo/internal/db/orders.sql.go:15-38 | appends the one row or, on any violation, changes nothing |
| Tables.Database.UpdateAccrualStatus | internal/repo/internal/db/orders.sql.go:208-226 | stamps the named row and reports whether there was one, or fails and changes nothing |
| Tables.Database.FindOrderByID | internal/repo/internal/db/orders.sql.go:62-72 | the owner of the first row of that name |
| Tables.Database.SelectOrdersForProcessing | internal/repo/internal/db/orders.sql.go:179-206 | the names of the rows that are NEW or PROCESSING |
| Tables.Transaction.CreateWithdrawal | internal/repo/internal/db/orders.sql.go:40-60 | stages the row against committed rows, or stages nothing |
| Tables.Transaction.Commit | internal/repo/repo.go:50-58 | publishes what was staged and nothing else |
| OrderRepo.GetAmountOfSum | internal/repo/order_repo.go:257-268 | an amount is had exactly when there are no rows, or one is not NULL and the sum fits; it is then the sum, and a failure is never retryable |
| OrderRepo.ReadBalanceTotals | internal/repo/order_repo.go:238-255 | the two amounts read are the sums of the user's rows in the two tables |
| OrderRepo.CheckCovers | internal/repo/order_repo.go:54-56 | for an amount the column accepts, the wrapped check passes exactly when the balance covers it: no wrap-around case gets through |
| OrderRepo.WithdrawAttemptShape | internal/repo/order_repo.go:48-74 | an attempt changes the tables only by this order's row, and only after its check passed |
| OrderRepo.WithdrawAttemptEffect | internal/repo/order_repo.go:48-74 | an attempt that writes leaves withdrawn at most accrued, for every int64 amount |
| OrderRepo.AlreadyRecorded | internal/repo/order_repo.go:32-79 | once the row is there, further attempts neither change anything nor report success |
| OrderRepo.WithdrawAtMostOnce | internal/repo/order_repo.go:32-79 | for every sequence of faults, unknown commit outcomes included: at most one row, success means exactly this user's row of this amount, and whoever is charged stays covered |
| OrderRepo.CleanWithdrawal | internal/repo/order_repo.go:32-79 | without faults a withdrawal succeeds if and only if its row is acceptable, its name new, both sums readable and the balance covers it |
| OrderRepo.RefusedForFunds | internal/repo/order_repo.go:54-56 | without faults a withdrawal fails for want of funds if and only if the balance can be read and is below what the int64 addition comes to; nothing is then changed |
| OrderRepo.FourAttempts | internal/repo/repo.go:66-82 | at most four attempts are made: the outcome does not depend on what a fifth would meet |
| Outages.SurvivesOutage | internal/repo/repo.go:66-99 | and four are: after up to three attempts that fail with any of the seven codes, a clean attempt does what it would have done alone |
| Outages.FourthIsFinal | internal/repo/repo.go:72-74 | a fourth such failure is the report, with nothing done |
| Outages.OtherFailureIsFinal | internal/repo/repo.go:75-81 | any other code ends it at once, at whatever attempt |
| Outages.CreateDecided | internal/repo/repo.go:66-82 | for any faults at all, creating an order comes out as its deciding attempt does |
| OrderRepo.AlreadyPosted | internal/repo/order_repo.go:34-46 | once an accrual order is there, further attempts neither change anything nor report success |
| OrderRepo.AccrualAtMostOnce | internal/repo/order_repo.go:32-79 | an accrual order is recorded at most once through any faults, and success means that it was |
| OrderRepo.BalanceAttemptOutcome | internal/repo/order_repo.go:211-224 | one balance transaction succeeds exactly when it meets no fault and both sums exist |
| OrderRepo.GetsThroughStep | internal/repo/repo.go:66-82 | a query gets through at this attempt, or at a later one when this failure is retried |
| OrderRepo.BalanceFromOutcome | internal/repo/repo.go:66-82 | and with retries exactly when some attempt in the limit meets none and all before it a retryable one |
| OrderRepo.BalanceReported | internal/repo/order_repo.go:205-236 | the balance is reported if and only if the calls get through, in four attempts at most, and both sums exist; current plus withdrawn is then what was accrued, both amounts with their kopecks below a rouble and the sign of their roubles |
| OrderRepo.TotalsPermutation | internal/repo/order_repo.go:115-180 | the total of a listing does not depend on its order |
| OrderRepo.AskedOutcome | internal/repo/order_repo.go:98-113 | a listing query is answered exactly when some attempt in the limit meets no fault after retryable ones only, and otherwise fails with what some attempt met |
| OrderRepo.AccrualListing | internal/repo/order_repo.go:115-147 | a listing has an order for each row of the user, in the rows' order: number, owner, status, kind, and the row's amount in its one spelling |
| OrderRepo.WithdrawalListing | internal/repo/order_repo.go:149-180 | the same for withdrawals, which have no status |
| OrderRepo.AccrualOrdersTotal | internal/repo/order_repo.go:115-147 | listed accruals add up to the user's sum, NULL counting as zero |
| OrderRepo.WithdrawalOrdersTotal | internal/repo/order_repo.go:149-180 | listed withdrawals add up to the user's sum |
| OrderRepo.BalanceAgreesWithListings | internal/repo/order_repo.go:115-268 | whenever a balance is reported, current plus withdrawn equals the listed accruals and withdrawn the listed withdrawals, for any number of rows listed in any order |
| OrderRepo.UpdateAttemptEffect | internal/repo/order_repo.go:182-199 | an attempt leaves the tables alone or updated; success means the order exists and was updated |
| OrderRepo.UpdateAttemptExactly | internal/repo/order_repo.go:182-199 | one attempt in full: when it changes the tables, when it reports success, when its failure is retried |
| OrderRepo.UpdateOnce | internal/repo/order_repo.go:182-203 | the same for any retries: an update repeated after a lost answer changes nothing more |
| OrderRepo.UpdateExactly | internal/repo/order_repo.go:182-203 | with retries: it takes effect if and only if it is acceptable and some attempt runs, and is reported done if and only if it is acceptable and some attempt gets its answer back |
| OrderRepo.UpdateOnRows | internal/repo/order_repo.go:182-203 | the update on the rows, in kopecks: if some attempt of four runs, the status exists and the total is in 0 to 10^12, the order's row gets the status and the total, NULL for zero, and no other row is touched; otherwise none is |
| OrderRepo.AccruedMoves | internal/repo/order_repo.go:182-203 | an update moves its owner's accruals by the new amount less the old one, and nobody else's |
| OrderRepo.UpdateIsUnconditional | internal/repo/order_repo.go:182-203 | an attempt stamps a row exactly when it runs, the update is acceptable and names the row: the row's status, final or not, is no part of the condition |
| OrderRepo.FindOutcome | internal/repo/order_repo.go:81-96 | a lookup succeeds exactly when some attempt gets through and the order exists, and names the stored owner; every failure says "not found" |
| OrderRepo.OrderRepository.WithdrawTX | internal/repo/repo.go:31-64 | begin, read, check, insert, commit and deferred rollback have the effect and the report of the specified attempt |
| OrderRepo.OrderRepository.CreateOrder | internal/repo/order_repo.go:32-79 | a successful withdrawal adds its one row and leaves its user covered; a failed one has at most left that row |
| OrderRepo.OrderRepository.CreateWithRetry | internal/repo/repo.go:66-82 | the recursion on the attempt counter: each attempt on what the last one left, with the effect and report that SurvivesOutage, FourthIsFinal and WithdrawAtMostOnce speak of |
| OrderRepo.OrderRepository.GetBalance | internal/repo/order_repo.go:205-236 | the method reports the balance of BalanceReported, read from the tables |
| OrderRepo.OrderRepository.ListAccruals | internal/repo/order_repo.go:115-147 | the filled slice has one order a row, in order, with the row's number, status and amount and the user's name |
| OrderRepo.OrderRepository.ListWithdrawals | internal/repo/order_repo.go:149-180 | the filled slice has one order a row, in order, with the row's number and amount and the user's name |
| OrderRepo.OrderRepository.ListOrdersByUser | internal/repo/order_repo.go:98-113 | EmptyUser exactly for an empty user; success exactly when one of four attempts gets through; then the listing of that kind, field by field; otherwise the error of some attempt |
| OrderRepo.OrderRepository.UpdateAccrualStatus | internal/repo/order_repo.go:182-203 | the effect and report of UpdateOnce, and the rows as UpdateOnRows has them, kopecks included |
| OrderRepo.OrderRepository.FindUserIDByAccrualID | internal/repo/order_repo.go:81-96 | the lookup of FindOutcome, with its retries |
| Handlers.PostOrder | internal/api/handlers/handlers.go:237-317 | which code is answered when: 422 and 400 exactly, 200 and 409 only by the stored owner, 202 only with the new row; nothing but that row is ever written; without faults the table decides between 200, 202, 409 and 500 |
| Handlers.Withdraw | internal/api/handlers/handlers.go:399-472 | 400 exactly for a body or sum that cannot be read, 402 exactly when the repository refuses for want of funds, 200 exactly when it succeeds, then with the one new row and the user covered; and every answer, a 200 too, goes out with an error text |
| Handlers.WithdrawalCode | internal/api/handlers/handlers.go:440-472 | without faults: 200 if and only if the row is acceptable and covered, 402 if and only if the balance is below the int64 sum |
| Ledger.NoOverdraft | internal/repo/order_repo.go:48-70 | in every interleaving, a user covered at the start stays covered while accruals do not shrink and the user's withdrawals do not overlap |
| Ledger.OverlappingWithdrawals | internal/repo/order_repo.go:48-70 | in every interleaving, a committed withdrawal leaves withdrawn minus accrued at most what the same user's other withdrawals took between its read and its commit |
| Ledger.OverlapBound | internal/repo/order_repo.go:238-255 | the same from the invariant, with the exact new sum: what was read, what slipped in, and this amount |
| LedgerBounds.OverlapOverdraws | internal/repo/order_repo.go:48-70 | any withdrawals of one user that could each be made alone have an interleaving in which all are reported done and their whole sum is taken: an overdraft whenever the sum exceeds the balance |
| LedgerBounds.OverdraftExample | internal/repo/order_repo.go:48-70 | with numbers: one rouble, two withdrawals of one rouble, both done |
| LedgerBounds.TakesNoMoreThanAsked | internal/repo/order_repo.go:32-79 | in every interleaving and through all retries, no more is taken from a user than the user's requests ask for |
| LedgerBounds.CoveredRequests | internal/repo/order_repo.go:32-79 | so a user whose balance covers all requests stays covered however they overlap |
| LedgerBounds.CoveredExactly | internal/repo/order_repo.go:48-70 | the exact condition, for any number of withdrawals payable alone: the user stays covered in every interleaving if and only if the balance covers their sum |
| LedgerExact.AcceptableExactly | internal/repo/order_repo.go:48-70 | the exact condition for withdrawals the table would take, payable at the start or not: a covered user stays covered in every interleaving, however the accruals grow, if and only if the balance covers their sum or at most one of them is positive |
| LedgerExact.OnePositiveIsCovered | internal/repo/order_repo.go:48-70 | with one positive withdrawal, whatever the zero ones, no interleaving overdraws |
| LedgerExact.GrowthOverdraws | internal/repo/internal/db/orders.sql.go:208-216 | with two positive ones beyond the balance, one accrual that arrives in time makes each payable and all of them too much |
| LedgerExact.EventKeepsCovered | internal/repo/order_repo.go:48-70 | every event keeps a user covered of whom at most one session claims anything |
| LedgerBounds.RunKeepsAccruals | internal/repo/internal/db/orders.sql.go:208-216 | over any run a user's accruals do not fall, unless an update is on record as lowering them |
| LedgerBounds.RowsAreCharged | internal/repo/order_repo.go:58-65 | the rows added for a user sum to the claims of the sessions that added them |
| Ledger.AtMostOneRow | internal/service/dbmanager/migrations/00001_init.up.sql:45 | in every reachable state each order name has at most one withdrawal row, and no session has added two, however often it retried |
| Ledger.ReportedWithdrawal | internal/repo/order_repo.go:77-78 | a withdrawal reported as done has exactly one row of its name, with its user and its amount |
| Ledger.Ownership | internal/api/handlers/handlers.go:281-316 | in every reachable state each 200 and 202 agrees with the stored owner, each 409 contradicts it, and no order number is accepted twice |
| Ledger.OwnerIsForever | internal/service/dbmanager/migrations/00001_init.up.sql:40 | from any state of the invariant, no run changes the owner of an order |
| Ledger.EventKeepsOwner | internal/repo/internal/db/orders.sql.go:208-216 | no single event does |
| Ledger.EventKeeps | internal/repo/order_repo.go:32-96 | every event keeps the ledger's invariant |
| Ledger.RunKeeps | internal/repo/order_repo.go:32-96 | so does every run |
| Ledger.ReachableInv | internal/repo/order_repo.go:32-96 | so it holds in every reachable state |
| Ledger.SessionStable | internal/repo/order_repo.go:48-70 | what a session has read and been answered stays true while the tables grow |
| Ledger.ReadKeeps | internal/repo/order_repo.go:238-255 | the balance reads keep the invariant |
| Ledger.InsertKeeps | internal/repo/order_repo.go:54-66 | the check and the insert keep it |
| Ledger.CommitKeeps | internal/repo/repo.go:55-57 | a commit keeps it, its outcome reported or lost |
| Ledger.FindKeeps | internal/api/handlers/handlers.go:281-316 | a lookup and the answer that follows it keep it |
| Ledger.CreateKeeps | internal/api/handlers/handlers.go:282-300 | the insert of a new order number keeps it |
| Ledger.UpdateGrows | internal/repo/internal/db/orders.sql.go:208-216 | a status update takes away no withdrawal and no owner, and lowers accruals only of users recorded as shrunk |
| Ledger.UpdateKeeps | internal/repo/internal/db/orders.sql.go:208-216 | a status update keeps the invariant |
| LedgerSolo.WithdrawsAlone | internal/repo/order_repo.go:32-79 | a withdrawal session left alone ends with the tables and the report of CreateOrder, for every sequence of faults |
| LedgerSolo.PostsAlone | internal/api/handlers/handlers.go:281-316 | a posting session left alone ends with the table and the code of PostOrder |
| LedgerSolo.AttemptsAlone | internal/repo/repo.go:31-64 | the statements of one attempt, run one by one, do what the attempt does in one piece |
| LedgerSolo.ArrivesAlone | internal/repo/order_repo.go:32-96 | from its arrival on, a request left alone is answered as in one piece, and nobody is put on record as overlapping |
| LedgerSolo.SomebodyMoves | internal/service/dbmanager/migrations/00001_init.up.sql:45 | no deadlock: in every state of the invariant, a session that has not ended has a next statement, or waits for a name whose holder can commit |
| Semaphores.CountdownStep | internal/utils/semaphore/semaphore.go:50 | the uint64 counter after n and then m releases is the counter after n + m |
| Semaphores.CountdownZero | internal/utils/semaphore/semaphore.go:51 | it is zero exactly at multiples of 2^64 |
| Semaphores.Semaphore.constructor | internal/utils/semaphore/semaphore.go:18-24 | an empty channel of the given capacity and a zero counter |
| Semaphores.Semaphore.AcquireWithTimeout | internal/utils/semaphore/semaphore.go:26-43 | which error or token is had when; the counter stays as it is |
| Semaphores.Semaphore.Release | internal/utils/semaphore/semaphore.go:45-54 | takes one token out and counts down once, or waits for ever and changes nothing |
| Semaphores.Semaphore.CondWait | internal/utils/semaphore/semaphore.go:61-63 | while the resize waits, senders past the block check put tokens in and holders take them out, each release counting the counter down |
| Semaphores.Semaphore.ChangeMaxRequests | internal/utils/semaphore/semaphore.go:56-66 | with any such traffic in its waits, returns exactly when the releases, at some check of its loop, are a multiple of 2^64; then with a new empty channel, else still blocking acquires |
| RequestWatching.RequestWatcher.Start | internal/service/agent/internal/requestwatcher/requestwatcher.go:31-58 | a zero counter, a fresh open stop channel, and one more goroutine, listening to that channel |
| RequestWatching.RequestWatcher.Stop | internal/service/agent/internal/requestwatcher/requestwatcher.go:60-64 | closes the current stop channel, and a second stop closes nothing again |
| RequestWatching.RequestWatcher.Listen | internal/service/agent/internal/requestwatcher/requestwatcher.go:42-57 | the loop counts every request up to the first closed channel and none after, modulo 2^64 |
| RequestWatching.Heard | internal/service/agent/internal/requestwatcher/requestwatcher.go:42-57 | the requests before the first closed channel, and that they are all of them |
| RequestWatching.RoundsCount | internal/service/agent/internal/requestwatcher/requestwatcher.go:42-57 | the pipeline's goroutine, its increment split into read and write, adds undisturbed what it takes from the buffer |
| RequestWatching.OverlapLosesOne | internal/service/agent/internal/requestwatcher/requestwatcher.go:31-58 | a start that does not find the previous goroutine gone can take two requests and count one |
| RequestWatching.LateStoreBreaksCount | internal/service/agent/internal/requestwatcher/requestwatcher.go:31-58 | a goroutine of the last round that stores what it read after the start brings the count beyond any capacity up to what it had read, with no request sent |
| Workers.Work | internal/service/agent/internal/workerpool/workerpool.go:74-135 | for any jobs, acquires and answers: results are the outcomes up to and including the first 429, requests the tokens had among them, rates that 429 alone |
| Workers.Served | internal/service/agent/internal/workerpool/workerpool.go:83-134 | the length of that prefix: no 429 before its end, and it ends early only with one |
| PoolWorkers.RefinesLoop | internal/service/agent/internal/workerpool/workerpool.go:74-135 | in every run, among any number of others, a worker of the pool does what the loop does alone: jobs taken, turns reported and requests counted agree, in order; the agent hears no rate but that of its last turn, and hears it, once the worker has left with a 429, if and only if the worker did not find its context done |
| PoolWorkers.HeardOrFoundDone | internal/service/agent/internal/workerpool/workerpool.go:118-129 | in every run, a worker is through with its 429 if and only if it was heard or found its context done, never both |
| PoolWorkers.RunOfWorker | internal/service/agent/internal/workerpool/workerpool.go:74-135 | over any run the jobs a worker has had grow by those it takes, and its requests by those it counts |
| PipelineTheorems.BoundedInFlight | internal/service/agent/internal/workerpool/workerpool.go:92-108 | in every reachable state the workers between acquire and release are the tokens of the current channel, at most its capacity; a release finds a token; a resize replaces an empty channel |
| PipelineDoor.AcquiresAlone | internal/utils/semaphore/semaphore.go:26-43 | a worker that nobody disturbs acquires as the semaphore alone does: refused at once while a resize blocks, given up at the timer or a full channel, with a token more otherwise |
| PipelineDoor.NeverRefusedAtTheDoor | internal/utils/semaphore/semaphore.go:30-32 | the block check never refuses anyone in any reachable state: while it blocks, no worker is alive |
| PipelineDoor.AtTheTop | internal/service/agent/internal/workerpool/workerpool.go:83-90 | a worker at the top of its loop can take a job exactly while the channel is open, and leave exactly when its context is done or the channel closed |
| PipelineDoor.NothingTakenAfterClose | internal/service/agent/internal/workerpool/workerpool.go:87-90 | once the job channel is closed, no run takes another job |
| PipelineDoor.ClosesJobs | internal/service/watcher/watcher.go:79-84 | it is closed only after the agent has closed the results |
| PipelineTheorems.JobConservation | internal/service/agent/internal/workerpool/workerpool.go:83-134 | jobs taken are those reported together with those in hand, at most one a worker; at the stop every job has exactly one result |
| PipelineTheorems.SafeShutdown | internal/service/agent/agent.go:71-104 | the WaitGroup counts the live workers, and neither a send on a closed channel nor a second close has happened or can happen next |
| PipelineTheorems.MarksAlternate | internal/service/agent/agent.go:81-98 | announcements received and timer firings alternate, one of each a generation |
| PipelineTheorems.AnnouncersOnce | internal/service/agent/internal/workerpool/workerpool.go:118-129 | a worker announces at most once, after its own result and its cancellation, and then only leaves |
| PipelineTheorems.OneAnnouncementPerPause | internal/service/agent/agent.go:81-98 | past the wait, the generation has had exactly one announcement and no live worker is left |
| PipelineStuck.AnnouncerBlocks | internal/service/agent/agent.go:71-82 | an agent that waits for its workers, after an announcement or at shutdown, is stuck in every run if and only if some worker is about to cancel or to announce |
| PipelineStuck.FirstAnnouncementBlocks | internal/service/agent/agent.go:81-82 | every pool of two workers or more can get there: two calls answered with a 429 |
| PipelineStuck.ShutdownBlocks | internal/service/agent/agent.go:71-80 | every pool can get there at shutdown: one call answered with a 429, and the context done before it is announced |
| PipelineStuck.CrossedStays | internal/service/agent/agent.go:71-82 | every event leaves such an agent where it is |
| PipelineStuck.Drain | internal/service/agent/agent.go:71-82 | otherwise some run brings every worker to its end, each token given back |
| PipelineStuck.Advance | internal/service/agent/internal/workerpool/workerpool.go:83-134 | each worker of a draining pool has a step that brings it nearer its end |
| PipelineTheorems.CutOffAfterCancel | internal/service/agent/internal/workerpool/workerpool.go:83-131 | after a worker cancels its generation, at most workerCount - 1 more client calls begin in it |
| PipelineTheorems.NothingAfterA429 | internal/service/agent/internal/workerpool/workerpool.go:118-129 | in the pool too, a worker's results end with its first 429 |
| PipelineTheorems.ResizeGuard | internal/utils/semaphore/semaphore.go:45-66 | in every reachable state the counter is minus the releases modulo 2^64; a resize ends exactly at a multiple of 2^64 releases; with fewer than 2^64 the pool is started once |
| PipelineStuck.ResizeBlocks | internal/utils/semaphore/semaphore.go:56-66 | an agent in the wait loop of a resize is stuck in every run if and only if the releases are no multiple of 2^64 |
| PipelineStuck.FirstResizeBlocks | internal/utils/semaphore/semaphore.go:56-66 | and every pool can get there: one call answered with a 429, one release |
| PipelineStuck.FirstResizeNeverEnds | internal/utils/semaphore/semaphore.go:56-66 | in particular no resize entered before 2^64 releases ever ends |
| PipelineStuck.JammedForever | internal/utils/semaphore/semaphore.go:60-63 | the jam is kept over every run |
| PipelineTheorems.InstalledLimit | internal/service/agent/agent.go:89-98 | in every reachable state there is a channel a generation: the first of the configured capacity, every later one of the limit for the rate that a worker reported and announced and for the rate measured at the firing that followed |
| PipelineTheorems.LimitIsQuotient | internal/service/agent/agent.go:91-94 | that limit is the announced rate over the measured one, rounded down, or the first limit when nothing was measured |
| PipelineTheorems.RequestAccounting | internal/service/agent/internal/workerpool/workerpool.go:92-132 | requests counted are the calls begun and the results not of the pool's own making, up to the workers in between |
| PipelineTheorems.WatcherCount | internal/service/agent/internal/requestwatcher/requestwatcher.go:31-64 | a stopped watcher's count is within the channel's capacity of the requests sent since its start, if no two of its goroutines have run together |
| PipelineRest.StoppedAtPause | internal/service/agent/agent.go:81-96 | in every reachable state, from the arming of the timer to the restart the watcher's stop channel is closed, and all earlier ones always are |
| PipelineRest.ComesToRest | internal/service/agent/internal/requestwatcher/requestwatcher.go:42-64 | so at every pause, and once the request channel is closed, some run of the watcher's goroutines alone ends them all; the count is then within the channel's capacity of the requests since the start, if no two have run together |
| PipelineRest.OneExits | internal/service/agent/internal/requestwatcher/requestwatcher.go:42-57 | a goroutine told to stop can exit whatever it has in hand, the others staying where they are |
| PipelineRest.NeverAlone | internal/service/agent/internal/requestwatcher/requestwatcher.go:42-57 | and until it is told to, the last one cannot |
| PipelineTheorems.EventKeeps | internal/service/agent/agent.go:40-106 | every event of the pipeline keeps all its invariants |
| PipelineTheorems.RunKeeps | internal/service/agent/agent.go:40-106 | so does every run |
| PipelineTheorems.ReachableInv | internal/service/agent/agent.go:40-106 | so they hold in every reachable state |
| PipelineTheorems.ReachableConfigured | internal/service/agent/agent.go:40-60 | the configuration never changes |
| PipelineLife.StepLife | internal/service/agent/internal/workerpool/workerpool.go:57-142 | a worker's action changes the WaitGroup as it changes the number of live workers, and closes nothing |
| PipelineLife.EventKeepsLife | internal/service/agent/agent.go:71-104 | the WaitGroup stays the number of live workers; paused, resizing and closing phases have none |
| PipelineLife.StepTokens | internal/utils/semaphore/semaphore.go:26-54 | a worker's action moves a token as it moves the worker in or out of its critical part |
| PipelineLife.EventKeepsTokens | internal/utils/semaphore/semaphore.go:26-66 | only the current channel holds tokens, one for each worker in that part |
| PipelineJobs.StepHolds | internal/service/agent/internal/workerpool/workerpool.go:83-134 | a worker takes a job with empty hands only, reports the one it has, and keeps it otherwise |
| PipelineJobs.StepHistory | internal/service/agent/internal/workerpool/workerpool.go:83-134 | the jobs taken and the results sent grow by what the action takes and sends |
| PipelineLimits.EventKeepsLimits | internal/service/agent/agent.go:81-98 | every event keeps the record of what each generation's end called for, and the agent's variables in step with it |
| PipelineLimits.EventKeepsAttended | internal/service/agent/internal/requestwatcher/requestwatcher.go:31-64 | from each start of the request watcher to its stop, its last goroutine listens to an open stop channel |
| PipelineLimits.EventKeepsStops | internal/service/agent/internal/requestwatcher/requestwatcher.go:31-64 | every event keeps all stop channels but the last closed, the last one too from the stop to the next start, one goroutine for each, and that the last one ends with its stop channel open only when the request channel is closed and empty |
| PipelineLimits.EventKeepsHalts | internal/service/agent/agent.go:71-80 | every event keeps that the agent halts only with its context done, and that jobs close only after the results |
| PipelineCrew.EventKeepsCrew | internal/service/agent/internal/workerpool/workerpool.go:57-131 | every event keeps that a generation has all its workers, that they leave only for a done context or closed jobs, and that whoever cancels is announcing until the agent hears of it |
| PipelineFree.FreeExactly | internal/service/agent/agent.go:71-104 | the exact condition, in every state of the invariant: some run without new jobs or data from the client gets a worker to the top of its loop if and only if the context is not done, and a worker can come back, or one is still to be spawned, or the pool can restart: no two announcements and releases that come to a multiple of 2^64 |
| PipelineFree.EventKeepsBarred | internal/service/agent/agent.go:71-104 | a pool that cannot free a worker cannot do so after any event |
| PipelineFree.ComesBack | internal/service/agent/internal/workerpool/workerpool.go:83-134 | a worker that can come back does, whatever the others do not do |
| PipelineFree.ComesToWait | internal/service/agent/agent.go:81-82 | a pool with nobody to come back and one announcement to make is heard, and waits with nobody in its way |
| PipelineFree.StartsAgain | internal/service/agent/agent.go:82-98 | a pool without workers, its releases a multiple of 2^64, gets through pause and resize to the next start |
| PipelineDrive.MakeRoom | internal/service/agent/internal/requestwatcher/requestwatcher.go:42-57 | some run of the watcher's goroutine alone makes room in the request channel |
| PipelineDrive.CallThrough | internal/service/agent/internal/workerpool/workerpool.go:92-108 | a worker with a job and a free token can be answered in any way, every other worker staying where it is |
| PipelineDrive.ToReport | internal/service/agent/internal/workerpool/workerpool.go:92-132 | a worker with a job can always come to report it, with its answer, or as refused or failed |
| PipelineJobs.StepMovesJob | internal/service/agent/internal/workerpool/workerpool.go:83-134 | the job in hand and the job taken are the job still in hand and the job reported |
| PipelineJobs.EventKeepsJobs | internal/service/agent/internal/workerpool/workerpool.go:83-134 | every event conserves jobs |
| PipelineJobs.StepCalls | internal/service/agent/internal/workerpool/workerpool.go:92-107 | an action keeps the balance of requests with calls begun |
| PipelineJobs.StepAnswers | internal/service/agent/internal/workerpool/workerpool.go:92-132 | and of requests with answers reported |
| PipelineJobs.EventKeepsRequests | internal/service/agent/internal/workerpool/workerpool.go:92-132 | every event keeps them, over all workers |
| PipelineJobs.EventKeepsCounter | internal/service/agent/internal/requestwatcher/requestwatcher.go:31-58 | with one goroutine at work no increment is lost: sent is counted, buffered or in hand |
| PipelineRates.StepGuard | internal/utils/semaphore/semaphore.go:45-54 | an action keeps the counter at minus the releases |
| PipelineRates.EventKeepsGuard | internal/utils/semaphore/semaphore.go:45-66 | acquiring is blocked exactly in the wait loop, and a later generation takes 2^64 releases |
| PipelineRates.StepWay | internal/service/agent/internal/workerpool/workerpool.go:118-129 | a worker that will announce has reported its 429 with the same rate, and has cancelled before it offers it |
| PipelineRates.StepHeard | internal/service/agent/internal/workerpool/workerpool.go:126-128 | the agent hears of a worker only by its announcement, with the rate the worker met |
| PipelineRates.EventKeepsAnnouncements | internal/service/agent/agent.go:81-98 | each mark sits at its generation's place, and its announcer is on its way out |
| PipelineRates.StepWords | internal/service/agent/internal/workerpool/workerpool.go:118-129 | a worker that has reported a 429 reports nothing more |
| PipelineRates.StepCutOff | internal/service/agent/internal/workerpool/workerpool.go:83-131 | a worker that begins a call under a done context begins no other |
| PipelineRates.EventKeepsCutOff | internal/service/agent/internal/workerpool/workerpool.go:57-131 | late calls are at most the late workers, a generation has at most workerCount of them, and its canceller is not late |
| PipelineRates.LateAreFewer | internal/service/agent/internal/workerpool/workerpool.go:57-68 | one worker of a generation that is not late leaves fewer late ones than it has workers |
| Watching.DispatchAll | internal/service/watcher/watcher.go:50-77 | every selected order is sent in turn; only selected rows change, to PROCESSING with a NULL amount, and all of them when no update meets a fault |
| Watching.MarkOnce | internal/service/watcher/watcher.go:61-76 | one dispatch's update touches the one row, through any retries |
| Watching.StoreResponse | internal/service/watcher/watcher.go:79-122 | the order a response names gets what it says if and only if some attempt of four runs and the response can be stored: INVALID for INVALID, PROCESSED for PROCESSED and NO_CONTENT, PROCESSING for the other four; its points in kopecks, NULL for none; nothing else changes |
| Watching.ResponseOnRows | internal/service/watcher/watcher.go:85-122 | the same as a statement about all rows, for the update with its retries |
| Watching.PointsArrive | internal/service/watcher/watcher.go:101-116 | and the accruals of the order's owner move by the points of the response less what the order held |
| Watching.EarnedDecimal | internal/service/watcher/watcher.go:101-115 | the points of an unsigned decimal are the kopecks that it spells |
| Watching.OutcomeSays | internal/service/agent/internal/workerpool/workerpool.go:92-142 | what a worker sends for "no content" is stored as PROCESSED, for a refusal, a failure or a 429 as PROCESSING, without points |
| Watching.PipeHistories | internal/service/agent/internal/workerpool/workerpool.go:83-134 | of all pipeline events only hand-overs add to the jobs taken or the results sent |
| Watching.EventKeepsReceiving | internal/service/watcher/watcher.go:79-122 | responses are stored in the order received, one at a time |
| Watching.EventKeepsDispatching | internal/service/watcher/watcher.go:50-77 | jobs taken are the dispatches, each from a selection that saw the order selectable |
| Watching.SelectedWasSeen | internal/repo/order_repo.go:270-280 | an order in a selection's queue was NEW or PROCESSING in the rows it saw |
| Watching.Provenance | internal/service/watcher/watcher.go:50-122 | if the client echoes the order number, responses applied to an order never exceed its dispatches, each from a selection that saw it NEW or PROCESSING |
| Watching.Lifecycle | internal/service/watcher/watcher.go:79-122 | what every event does to a row: a mark that runs leaves PROCESSING and NULL, a response that runs leaves its status and points, nothing else touches it; so it never returns to NEW or changes its owner, and leaves the selectable set only by PROCESSED, NO_CONTENT or INVALID about that order |
| Watching.NeverNewAgain | internal/service/watcher/watcher.go:50-122 | over any run no order disappears, changes hands or returns to NEW |
| WatchingTurns.DispatchedInTurn | internal/service/watcher/watcher.go:50-77 | in every reachable state, what a selection has handed over is the start of its list, in order and without a gap; and no update is past its fourth attempt |
| WatchingTurns.EventKeepsTurns | internal/service/watcher/watcher.go:50-77 | every event keeps that |
| WatchingTurns.MarkGoesOn | internal/service/watcher/watcher.go:61-76 | a mark is repeated exactly after a failed connection at one of its first three attempts; otherwise the selection goes on to its next order |
| WatchingTurns.WriteGoesOn | internal/service/watcher/watcher.go:116-122 | and so is the storing of a response, after which the watcher is free |
| WatchingTurns.PostedIsSelected | internal/repo/internal/db/orders.sql.go:15-21 | a posted order goes in as NEW without points, and the next selection has it |
| WatchingTurns.NothingStoredAfterDone | internal/service/watcher/watcher.go:45-77 | once the context is done, no run changes a stored row or begins a selection |
| WatchingOutages.MarksAlone | internal/service/watcher/watcher.go:61-76 | the attempts at a mark, one by one, leave what the repository's update leaves with its retries |
| WatchingOutages.DispatchesAlone | internal/service/watcher/watcher.go:61-76 | from the hand-over on: the worker has the order, and its mark starts at the first attempt |
| WatchingOutages.WritesAlone | internal/service/watcher/watcher.go:116-122 | the attempts to store a response, one by one, leave what the repository's update leaves |
| WatchingOutages.RespondsAlone | internal/service/watcher/watcher.go:79-122 | from a worker's report on: what is stored is what the worker reports, from the first attempt |
| Watching.AttemptOnRow | internal/repo/order_repo.go:182-199 | one attempt on one row: stamped with status and total exactly if it runs, is acceptable and names the row |
| FinalOrders.BreaksExactly | internal/service/watcher/watcher.go:50-122 | a fact about an order, its status or its whole row, is broken in one event if and only if a mark of the order or a response about it runs that is acceptable and stamps another status or amount; whether the order was final has no say |
| FinalOrders.SettledStays | internal/service/watcher/watcher.go:50-122 | a final order about which nothing is on its way or waiting stays so, and keeps its status and amount, through any event in which the client echoes |
| FinalOrders.UndisturbedStays | internal/service/watcher/watcher.go:50-122 | an event brings something on its way only by dispatching the order |
| FinalOrders.SettledForever | internal/service/watcher/watcher.go:50-122 | and through any run |
| FinalFalls.FinalStandsExactly | internal/service/watcher/watcher.go:50-122 | the exact condition, in every reachable state, for the status and for the whole row: a final order stands in every echoing run if and only if the context is done, or no mark, call or response that can change it is on its way, and no selection has it still to dispatch or no worker can be freed to take it |
| FinalFalls.UnderwayFalls | internal/service/watcher/watcher.go:61-122 | anything on its way can change it: a mark, a call not yet answered, an answer that differs in status or amount, a response |
| FinalFalls.QueueFalls | internal/service/watcher/watcher.go:61-76 | and so can a queue that holds the order, however far down, when a worker is free |
| LostAccruals.LateMarkLosesAccrual | internal/service/watcher/watcher.go:61-76 | in every pool, for every first selected order: one dispatch and one PROCESSED answer can leave it PROCESSING with a NULL amount, the mark coming after the response |
| LostAccruals.LostTenRoubles | internal/service/watcher/watcher.go:61-76 | with numbers: one worker, one order, ten roubles on record and then lost |
| LostAccruals.LateResponseReplaces | internal/service/watcher/watcher.go:79-122 | in every pool, for every first selected order: dispatched by two selections, it can be PROCESSED with its amount and then, with no mark outstanding, take whatever acceptable status and amount a second answer brings |
| LostAccruals.LostToASecondAnswer | internal/service/watcher/watcher.go:79-122 | with numbers: ten roubles, then a second PROCESSED without an amount; the status stands in every run, the points do not |

## Left out

- HTTP routing, authentication, JSON and the Luhn library: no property of their own; of the handlers, PostOrder and
  Withdraw are modelled.
- The accrual HTTP client: its answers are arbitrary, and its network code and header parsing are not modelled.
- Wall-clock time, sleeps between attempts, and the floating-point rate measurement: timers fire at any time, and the
  measured rate is any natural number.
- PostgreSQL and pgx internals: serial keys, timestamps and ORDER BY (listings are compared up to order), and the
  silent cut of trailing blanks beyond a VARCHAR's length.
- Balance reads that interleave with other sessions: the ledger interleaves those of a withdrawal; the reported balance
  and the listings are compared over tables that do not change during the calls.
- Sends on the order channel after the watcher has closed it: the agent's three channels are proved safe, this one is
  not.
- Liveness and freedom from deadlock: false of the code, as FirstAnnouncementBlocks, ShutdownBlocks and
  FirstResizeBlocks show.
- Update in place in `Agent.Run`, in the concurrent pool and in the watcher's select loop: these are transition systems
  over values, in which a section under the semaphore's mutex is one step, and the unsynchronised read of the channel
  field is a step of its own. The data races of the stop channel and its once-guard are not modelled.
- A timer that is replaced while it still holds an undelivered firing: a new timer starts empty.
- Overflow of the request counter in the pipeline: it is a natural number there; `RequestWatching` wraps it at 2^64.
- Selections whose query fails: they select nothing, and are no event of the watcher.
- User registration, configuration, logging and running of migrations: the set of users is fixed.
- Ledger.NoOverdraft: assumes that the user's accruals were never lowered, since the update statement may lower them.
- PipelineTheorems.CutOffAfterCancel: assumes that a call begun under a done context fails other than with "no content".
- Watching.Provenance: assumes that the client echoes the order number, and counts a response once however many attempts
  its storing takes.
- PipelineTheorems.WatcherCount: assumes that a stopped goroutine has exited before the next start, since two of them
  can lose increments (`RequestWatching.OverlapLosesOne`) or break the bound (`RequestWatching.LateStoreBreaksCount`).
- FinalFalls.FinalStandsExactly: speaks of runs in which the client echoes the order number.
- LedgerExact.AcceptableExactly: speaks of a user who has an accrual order at the start and whose two sums can be read;
  a sum that cannot be read lets no withdrawal through.
