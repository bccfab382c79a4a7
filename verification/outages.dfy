/** How long an outage of the database a request survives. */
module Outages {
  import opened Results
  import opened Errors
  import opened Tables
  import opened OrderRepo

  /** The first statement of an attempt to create an order meets this failure, and nothing is done. */
  predicate StopsAtOnce(f: Faults, kind: OrderType, e: Failure) {
    if kind == TypeAccrual then f.commit == LostBefore(e) else f.begin == Some(e)
  }

  /** The connection fails at the start of each of the first attempts. */
  predicate Outage(weather: nat -> Faults, kind: OrderType, errors: seq<Failure>) {
    forall j :: 0 <= j < |errors| ==> IsTransient(errors[j]) && StopsAtOnce(weather(j), kind, errors[j])
  }

  lemma {:induction false} NothingDone(t: Tables, o: Order, weather: nat -> Faults, errors: seq<Failure>, k: nat)
    requires Outage(weather, o.kind, errors) && k <= |errors|
    ensures StateAt(Creation(o, weather), t, k) == t
    ensures forall j :: 0 <= j < k ==> FailsInTransit(Creation(o, weather), t, j)
  {
    hide ReadBalance, InsertAccrual;
    if k > 0 {
      NothingDone(t, o, weather, errors, k - 1);
      assert CreateAttempt(t, o, weather(k - 1)) == (t, Err(errors[k - 1]));
    }
  }

  /** With attempt `k` the first not to fail in transit, or the fourth, a creation comes out as that attempt does, on
      what the attempts before it have left. */
  lemma CreateDecided(t: Tables, o: Order, weather: nat -> Faults, k: nat)
    requires Decides(Creation(o, weather), t, k)
    ensures CreateFrom(t, o, weather, 0) == CreateAttempt(StateAt(Creation(o, weather), t, k), o, weather(k))
  {
    hide CreateAttempt, WithRetry, Decides;
    RetryExactly(Creation(o, weather), t, k);
  }

  /** A clean attempt never asks to be repeated. */
  lemma CleanIsFinal(t: Tables, o: Order)
    ensures var r := CreateAttempt(t, o, CLEAN).1; r.Err? ==> !IsTransient(r.error)
  {
    hide ReadBalance, InsertWithdrawal, Sufficient;
    ReadBalanceFailure(t, o.user);
    InsertFailure(t, o);
    var r := CreateAttempt(t, o, CLEAN).1;
    if r.Err? {
      TransientIsRetryable(r.error);
    }
  }

  /** A creation survives an outage of up to three attempts, and then does what it does without faults. */
  lemma SurvivesOutage(t: Tables, o: Order, weather: nat -> Faults, errors: seq<Failure>)
    requires |errors| <= 3 && Outage(weather, o.kind, errors) && weather(|errors|) == CLEAN
    ensures CreateFrom(t, o, weather, 0) == CreateAttempt(t, o, CLEAN)
  {
    hide CreateAttempt, Outage, IsTransient;
    NothingDone(t, o, weather, errors, |errors|);
    CleanIsFinal(t, o);
    CreateDecided(t, o, weather, |errors|);
  }

  /** It does not survive a fourth: its error is the last one, and nothing was done. */
  lemma FourthIsFinal(t: Tables, o: Order, weather: nat -> Faults, errors: seq<Failure>)
    requires |errors| == 4 && Outage(weather, o.kind, errors)
    ensures CreateFrom(t, o, weather, 0) == (t, Err(errors[3]))
  {
    hide ReadBalance, InsertAccrual;
    NothingDone(t, o, weather, errors, 3);
    CreateDecided(t, o, weather, 3);
  }

  /** Nor any failure other than that of the connection, at whatever attempt. */
  lemma OtherFailureIsFinal(t: Tables, o: Order, weather: nat -> Faults, errors: seq<Failure>, e: Failure)
    requires |errors| <= 3 && Outage(weather, o.kind, errors)
    requires StopsAtOnce(weather(|errors|), o.kind, e) && !IsTransient(e)
    ensures CreateFrom(t, o, weather, 0) == (t, Err(e))
  {
    hide ReadBalance, InsertAccrual;
    NothingDone(t, o, weather, errors, |errors|);
    CreateDecided(t, o, weather, |errors|);
  }
}
