/** Errors seen by the repositories, and the retry rule built on them. */
module Errors {
  import opened Results

  /** Wrapping with context keeps the wrapped error visible, so only the innermost causes are kept.
      `NotFound` is joined with the error that made the lookup fail. */
  datatype Error =
    | Pg(code: string)
    | Opaque
    | NoRows
    | NullNumeric
    | InsufficientFunds
    | NothingUpdated
    | EmptyUser
    | NotFound(cause: Error)

  /** What a statement can report when the server or the network fails it. */
  type Failure = e: Error | e.Pg? || e.Opaque? witness Opaque

  const UNIQUE_VIOLATION := "23505"
  const CHECK_VIOLATION := "23514"
  const NOT_NULL_VIOLATION := "23502"
  const FOREIGN_KEY_VIOLATION := "23503"
  const NUMERIC_OUT_OF_RANGE := "22003"
  const STRING_TOO_LONG := "22001"

  /** Connection exceptions, "cannot connect now" and "transaction resolution unknown". */
  const RETRYABLE_CODES := {"08000", "08003", "08006", "57P03", "08001", "08004", "08007"}

  predicate IsRetryable(e: Error) {
    match e
    case Pg(code) => code in RETRYABLE_CODES
    case NotFound(cause) => IsRetryable(cause)
    case _ => false
  }

  const MAX_ATTEMPT_COUNT := 3

  /** Whether the attempt numbered `counter`, having failed with `e`, is followed by another. */
  predicate Reattempts(counter: nat, e: Error) {
    counter < MAX_ATTEMPT_COUNT && IsRetryable(e)
  }

  /** Runs `attempt` on the state `s`, from attempt number `counter` on, until it succeeds, fails for good, or has been
      tried four times. */
  function WithRetry<S, T>(attempt: (S, nat) -> (S, Result<T, Error>), s: S, counter: nat): (S, Result<T, Error>)
    requires counter <= MAX_ATTEMPT_COUNT
    decreases MAX_ATTEMPT_COUNT - counter
  {
    var (s', r) := attempt(s, counter);
    if r.Err? && Reattempts(counter, r.error) then WithRetry(attempt, s', counter + 1) else (s', r)
  }

  // ---------------------------------------------------------------- which attempt decides

  /** The error says that the connection failed, and not the statement: one of seven SQLSTATE codes. */
  predicate IsTransient(e: Error) {
    match e
    case Pg(code) =>
      || code == "08000" || code == "08001" || code == "08003" || code == "08004" || code == "08006"
      || code == "08007" || code == "57P03"
    case NotFound(cause) => IsTransient(cause)
    case _ => false
  }

  lemma {:induction false} TransientIsRetryable(e: Error)
    ensures IsTransient(e) <==> IsRetryable(e)
  {
    if e.NotFound? {
      TransientIsRetryable(e.cause);
    }
  }

  /** The state that attempt `k` finds, if all before it are made. */
  function StateAt<S, T>(attempt: (S, nat) -> (S, Result<T, Error>), s: S, k: nat): S {
    if k == 0 then s else attempt(StateAt(attempt, s, k - 1), k - 1).0
  }

  predicate FailsInTransit<S, T>(attempt: (S, nat) -> (S, Result<T, Error>), s: S, k: nat) {
    var r := attempt(StateAt(attempt, s, k), k).1;
    r.Err? && IsTransient(r.error)
  }

  /** Attempt `k`, of four at most, is the first not to fail in transit, or the fourth. */
  predicate Decides<S, T>(attempt: (S, nat) -> (S, Result<T, Error>), s: S, k: nat) {
    && k <= 3 && (forall j :: 0 <= j < k ==> FailsInTransit(attempt, s, j))
    && (k == 3 || !FailsInTransit(attempt, s, k))
  }

  /** The attempt that decides is the outcome: its report, and its effect after those of the attempts before it. */
  lemma RetryExactly<S, T>(attempt: (S, nat) -> (S, Result<T, Error>), s: S, k: nat)
    requires Decides(attempt, s, k)
    ensures WithRetry(attempt, s, 0) == attempt(StateAt(attempt, s, k), k)
  {
    RetryFrom(attempt, s, 0, k);
  }

  lemma {:induction false} RetryFrom<S, T>(attempt: (S, nat) -> (S, Result<T, Error>), s: S, c: nat, k: nat)
    requires Decides(attempt, s, k) && c <= k && k <= MAX_ATTEMPT_COUNT
    ensures WithRetry(attempt, StateAt(attempt, s, c), c) == attempt(StateAt(attempt, s, k), k)
    decreases k - c
  {
    var r := attempt(StateAt(attempt, s, c), c).1;
    if r.Err? {
      TransientIsRetryable(r.error);
    }
    if c < k {
      assert FailsInTransit(attempt, s, c);
      RetryFrom(attempt, s, c + 1, k);
    }
  }

  /** And there is one. */
  lemma SomeDecides<S, T>(attempt: (S, nat) -> (S, Result<T, Error>), s: S) returns (k: nat)
    ensures Decides(attempt, s, k)
  {
    k := 0;
    while k < 3 && FailsInTransit(attempt, s, k)
      invariant k <= 3 && forall j :: 0 <= j < k ==> FailsInTransit(attempt, s, j)
    {
      k := k + 1;
    }
  }
}
