/** One worker of the pool: what it sends for a job, and its loop over a finite list of jobs. */
module Workers {

  const STATUS_NO_CONTENT := "NO_CONTENT"
  const STATUS_CALCULATOR_FAILED := "CALCULATOR_FAILED"
  const STATUS_AGENT_FAILED := "AGENT_FAILED"

  datatype Info = Info(order: string, status: string, accrual: string)

  datatype Rate = Rate(retryAfter: int, rpm: nat)

  /** What the accrual client can come back with. */
  datatype Answer = Data(info: Info) | NoContent | TooMany(rate: Rate) | Failed

  /** How a job ended: no token was had for it, or the client answered. */
  datatype Outcome = Refused | Answered(answer: Answer)

  function Dummy(job: string, status: string): Info {
    Info(job, status, "")
  }

  function InfoOf(job: string, outcome: Outcome): Info {
    match outcome
    case Refused => Dummy(job, STATUS_AGENT_FAILED)
    case Answered(Data(info)) => info
    case Answered(NoContent) => Dummy(job, STATUS_NO_CONTENT)
    case Answered(_) => Dummy(job, STATUS_CALCULATOR_FAILED)
  }

  /** A job, whether a token is had for it, and what the client answers then. */
  datatype Turn = Turn(job: string, acquired: bool, answer: Answer) {
    predicate Announces() {
      acquired && answer.TooMany?
    }

    function Outcome(): Outcome {
      if acquired then Answered(answer) else Refused
    }
  }

  /** The number of turns up to and including the first that meets a 429. */
  function Served(turns: seq<Turn>): (n: nat)
    ensures n <= |turns|
    ensures forall i :: 0 <= i < n - 1 ==> !turns[i].Announces()
    ensures n < |turns| ==> n > 0 && turns[n - 1].Announces()
  {
    if turns == [] then 0 else if turns[0].Announces() then 1 else 1 + Served(turns[1..])
  }

  function Acquired(turns: seq<Turn>): nat {
    if turns == [] then 0 else Acquired(turns[..|turns| - 1]) + if turns[|turns| - 1].acquired then 1 else 0
  }

  lemma NoneAcquired()
    ensures Acquired([]) == 0
  {
  }

  /** What a worker reports for a turn. */
  lemma InfoOfTurn(turn: Turn)
    ensures InfoOf(turn.job, turn.Outcome()) ==
            if !turn.acquired then Info(turn.job, "AGENT_FAILED", "")
            else if turn.answer.Data? then turn.answer.info
            else Info(turn.job, if turn.answer.NoContent? then "NO_CONTENT" else "CALCULATOR_FAILED", "")
  {
  }

  lemma AcquiredNext(turns: seq<Turn>, n: nat)
    requires n < |turns|
    ensures Acquired(turns[..n + 1]) == Acquired(turns[..n]) + if turns[n].acquired then 1 else 0
  {
    assert turns[..n + 1][..n] == turns[..n];
  }

  /** The worker's loop, until its jobs run out or a 429 ends it; nobody else cancels. It reports every turn up to and
      including the first 429 and none after it, counts one request per token, and announces that 429 alone. */
  method Work(turns: seq<Turn>) returns (results: seq<Info>, requests: nat, rates: seq<Rate>)
    ensures |results| == Served(turns)
    ensures forall i :: 0 <= i < |results| ==> results[i] == InfoOf(turns[i].job, turns[i].Outcome())
    ensures requests == Acquired(turns[..Served(turns)])
    ensures if exists t :: t in turns && t.Announces()
            then rates == [turns[Served(turns) - 1].answer.rate]
            else rates == []
  {
    hide InfoOf, Acquired, Served, Turn.Outcome;
    results, requests, rates := [], 0, [];
    NoneAcquired();
    var cancelled := false;
    var next := 0;
    while next < |turns|
      invariant 0 <= next <= |turns| && |results| == next && rates == [] && !cancelled
      invariant forall i :: 0 <= i < next ==> !turns[i].Announces()
      invariant forall i :: 0 <= i < next ==> results[i] == InfoOf(turns[i].job, turns[i].Outcome())
      invariant requests == Acquired(turns[..next])
    {
      var turn := turns[next];
      AcquiredNext(turns, next);
      InfoOfTurn(turn);
      next := next + 1;
      if !turn.acquired {
        results := results + [Dummy(turn.job, STATUS_AGENT_FAILED)];
        continue;
      }
      requests := requests + 1;
      if turn.answer.Data? {
        results := results + [turn.answer.info];
        continue;
      }
      if turn.answer.NoContent? {
        results := results + [Dummy(turn.job, STATUS_NO_CONTENT)];
        continue;
      }
      results := results + [Dummy(turn.job, STATUS_CALCULATOR_FAILED)];
      if cancelled {
        break;
      }
      if turn.answer.TooMany? {
        cancelled := true;
        rates := rates + [turn.answer.rate];
        assert turns[next - 1].Announces() && Served(turns) == next;
        return;
      }
    }
    assert turns[..|turns|] == turns;
  }
}
