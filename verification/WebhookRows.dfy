/** One outbox row under delivery attempts: what each attempt does to it, and what any
    sequence of attempts amounts to. */
module WebhookRows {
  import opened Options
  import opened Decimals

  type RowId = nat

  /** Microseconds. */
  type Time = int

  const SECOND: int := 1_000_000
  const MAX_ATTEMPTS: nat := 5
  const BACKOFF_SECONDS: seq<int> := [1, 5, 25, 125, 625]

  datatype DeliveryStatus = PENDING | DELIVERED | EXHAUSTED

  datatype Row = Row(endpoint: nat, status: DeliveryStatus, attempts: nat, nextAttemptAt: Time,
                     lastError: Option<string>, deliveredAt: Option<Time>)

  /** What comes back from the POST. */
  datatype Outcome = Responded(code: int) | TimedOut | Raised(message: string)

  predicate Succeeded(outcome: Outcome) {
    outcome.Responded? && 200 <= outcome.code < 300
  }

  function ErrorMessage(outcome: Outcome): string {
    match outcome
    case Responded(code) => "HTTP " + Print(code)
    case TimedOut => "delivery timeout"
    case Raised(message) => message
  }

  /** One delivery of a claimed row: when its batch was claimed and when it was done, and
      whether the endpoint was found and what its answer was. */
  datatype Result =
    | Missing(claimedAt: Time, now: Time)
    | Posted(claimedAt: Time, now: Time, outcome: Outcome)

  function Backoff(attempts: nat): int {
    BACKOFF_SECONDS[if attempts < |BACKOFF_SECONDS| - 1 then attempts else |BACKOFF_SECONDS| - 1]
  }

  function AfterDelivery(row: Row, result: Result): Row {
    match result
    case Missing(_, _) => row.(status := EXHAUSTED, lastError := Some("endpoint not found"))
    case Posted(_, now, outcome) =>
      var tried := row.(attempts := row.attempts + 1);
      if Succeeded(outcome) then tried.(status := DELIVERED, deliveredAt := Some(now))
      else if tried.attempts >= MAX_ATTEMPTS then tried.(status := EXHAUSTED, lastError := Some(ErrorMessage(outcome)))
      else tried.(lastError := Some(ErrorMessage(outcome)), nextAttemptAt := now + Backoff(tried.attempts) * SECOND)
  }

  /** A row as enqueue_event inserts it. */
  predicate Fresh(row: Row) {
    row.status == PENDING && row.attempts == 0
  }

  /** The row can be claimed at this time. */
  predicate Due(row: Row, now: Time) {
    row.status == PENDING && row.nextAttemptAt <= now
  }

  /******* A row's life *******/

  function Life(row: Row, results: seq<Result>): Row {
    if results == [] then row else AfterDelivery(Life(row, results[..|results| - 1]), results[|results| - 1])
  }

  /** Every delivery was of a due row, by a clock that does not go back. */
  ghost predicate Legit(row: Row, results: seq<Result>) {
    results == [] ||
    var front, last := results[..|results| - 1], results[|results| - 1];
    Legit(row, front) && Due(Life(row, front), last.claimedAt) && last.claimedAt <= last.now
  }

  lemma LifeSnoc(row: Row, results: seq<Result>, result: Result)
    ensures Life(row, results + [result]) == AfterDelivery(Life(row, results), result)
    ensures Legit(row, results + [result]) <==>
            Legit(row, results) && Due(Life(row, results), result.claimedAt) && result.claimedAt <= result.now
  {
    assert (results + [result])[..|results|] == results;
  }

  /** A POST that was not answered with a 2xx status: another status, no answer in time, or an error. */
  predicate Failed(result: Result) {
    result.Posted? && (result.outcome.Responded? ==> result.outcome.code / 100 != 2)
  }

  /** The endpoint answered with a 2xx status. */
  predicate Accepted(result: Result) {
    result.Posted? && result.outcome.Responded? && result.outcome.code / 100 == 2
  }

  function Posts(results: seq<Result>): nat {
    if results == [] then 0 else Posts(results[..|results| - 1]) + if results[|results| - 1].Posted? then 1 else 0
  }

  ghost predicate AllFailed(results: seq<Result>) {
    forall k :: 0 <= k < |results| ==> Failed(results[k])
  }

  /** The counter counts the POSTs; the status says how the deliveries went: pending while there
      were only failures and fewer than five, delivered exactly by a 2xx answer, which comes after
      failures, exhausted by five failures or by a missing endpoint after failures. */
  lemma {:induction false} StatusTellsHistory(row: Row, results: seq<Result>)
    requires Fresh(row) && Legit(row, results)
    ensures Life(row, results).attempts == Posts(results) <= MAX_ATTEMPTS && |results| <= MAX_ATTEMPTS
    ensures results != [] ==> AllFailed(results[..|results| - 1])
    ensures Life(row, results).status == PENDING <==> AllFailed(results) && |results| < MAX_ATTEMPTS
    ensures Life(row, results).status == DELIVERED <==>
              results != [] && Accepted(results[|results| - 1])
    ensures Life(row, results).status == EXHAUSTED <==>
              results != [] && (results[|results| - 1].Missing? || (AllFailed(results) && |results| == MAX_ATTEMPTS))
    ensures Life(row, results).status == PENDING ==> Posts(results) == |results|
  {
    if results != [] {
      var front, last := results[..|results| - 1], results[|results| - 1];
      StatusTellsHistory(row, front);
      assert AllFailed(front);
      assert AllFailed(results) <==> Failed(last) by {
        if Failed(last) {
          forall k | 0 <= k < |results| ensures Failed(results[k]) {
            if k < |front| { assert results[k] == front[k]; }
          }
        }
      }
    }
  }

  /** What a row says about a delivery that did not succeed. */
  function MessageOf(result: Result): string {
    match result
    case Missing(_, _) => "endpoint not found"
    case Posted(_, _, Responded(code)) => "HTTP " + Print(code)
    case Posted(_, _, TimedOut) => "delivery timeout"
    case Posted(_, _, Raised(message)) => message
  }

  /** Different status codes leave different messages, and none of them is that of a timeout or a missing endpoint. */
  lemma MessagesTell(code: int, other: int, first: Result, second: Result)
    requires first.Posted? && first.outcome == Responded(code)
    ensures second.Posted? && second.outcome == Responded(other) ==>
              (MessageOf(first) == MessageOf(second) <==> code == other)
    ensures second.Missing? || (second.Posted? && second.outcome.TimedOut?) ==> MessageOf(first) != MessageOf(second)
  {
    if second.Posted? && second.outcome == Responded(other) && MessageOf(first) == MessageOf(second) {
      assert MessageOf(first)[5..] == Print(code) && MessageOf(second)[5..] == Print(other);
      PrintInjective(code, other);
    }
    assert MessageOf(first)[0] == 'H';
  }

  /** The row keeps its endpoint, the message of the last failure, and the time of the success
      if there was one; once it is closed, its due time stays as it was. */
  lemma {:induction false} RowRemembers(row: Row, results: seq<Result>)
    requires Fresh(row) && Legit(row, results) && row.lastError == None && row.deliveredAt == None
    ensures var life, n := Life(row, results), |results|;
            && life.endpoint == row.endpoint
            && (life.status != PENDING ==> life.nextAttemptAt == Life(row, results[..n - 1]).nextAttemptAt)
            && life.deliveredAt == (if life.status == DELIVERED then Some(results[n - 1].now) else None)
            && life.lastError == (if life.status != DELIVERED && n > 0 then Some(MessageOf(results[n - 1]))
                                  else if life.status == DELIVERED && n > 1 then Some(MessageOf(results[n - 2]))
                                  else None)
  {
    StatusTellsHistory(row, results);
    if results != [] {
      var front := results[..|results| - 1];
      RowRemembers(row, front);
      StatusTellsHistory(row, front);
    }
  }

  /******* Backoff *******/

  function Pow5(n: nat): nat {
    if n == 0 then 1 else 5 * Pow5(n - 1)
  }

  /** The k-th failure is followed by a wait of 5^k seconds: the table is never read at its
      first entry, and the clamp on the index is never needed. */
  lemma WaitIsPower(k: nat)
    requires 0 < k < MAX_ATTEMPTS
    ensures k < |BACKOFF_SECONDS| && Backoff(k) == BACKOFF_SECONDS[k] == Pow5(k)
  {
    assert Pow5(1) == 5 && Pow5(2) == 25 && Pow5(3) == 125 && Pow5(4) == 625;
  }

  /** How late the deliveries were finished, all together, measured from the due times. */
  function Lateness(row: Row, results: seq<Result>): int {
    if results == [] then 0
    else
      var front := results[..|results| - 1];
      Lateness(row, front) + results[|results| - 1].now - Life(row, front).nextAttemptAt
  }

  /** The due time, exactly: first due time, plus the lateness so far, plus 5 + 25 + ... + 5^n seconds. */
  lemma {:induction false} DueTime(row: Row, results: seq<Result>)
    requires Fresh(row) && Legit(row, results) && Life(row, results).status == PENDING
    ensures 4 * (Life(row, results).nextAttemptAt - row.nextAttemptAt - Lateness(row, results)) ==
            (Pow5(|results| + 1) - 5) * SECOND
    ensures Lateness(row, results) >= 0
  {
    if results != [] {
      var front := results[..|results| - 1];
      DueTime(row, front);
      StatusTellsHistory(row, front);
      StatusTellsHistory(row, results);
      WaitIsPower(|results|);
      assert Pow5(|results| + 1) == 5 * Pow5(|results|);
    }
  }

  /** The n-th delivery starts at least (5^n - 5) / 4 seconds after the row was first due. */
  lemma BackoffBound(row: Row, results: seq<Result>, n: nat)
    requires Fresh(row) && Legit(row, results) && 0 < n <= |results|
    ensures 4 * (results[n - 1].claimedAt - row.nextAttemptAt) >= (Pow5(n) - 5) * SECOND
  {
    LegitPrefix(row, results, n);
    var upto := results[..n];
    assert upto[..n - 1] == results[..n - 1];
    DueTime(row, results[..n - 1]);
  }

  lemma {:induction false} LegitPrefix(row: Row, results: seq<Result>, n: nat)
    requires Legit(row, results) && n <= |results|
    ensures Legit(row, results[..n])
    decreases |results|
  {
    if n == |results| {
      assert results[..n] == results;
    } else {
      var front := results[..|results| - 1];
      LegitPrefix(row, front, n);
      assert front[..n] == results[..n];
    }
  }

  /** Giving up after failures takes at least 780 seconds. */
  lemma ExhaustionTakes780Seconds(row: Row, results: seq<Result>)
    requires Fresh(row) && Legit(row, results)
    requires Life(row, results).status == EXHAUSTED && results[|results| - 1].Posted?
    ensures |results| == 5 && results[4].now >= row.nextAttemptAt + 780_000_000
  {
    StatusTellsHistory(row, results);
    BackoffBound(row, results, MAX_ATTEMPTS);
    assert Pow5(5) == 5 * Pow5(4) && Pow5(4) == 5 * Pow5(3) && Pow5(3) == 5 * Pow5(2) && Pow5(2) == 25;
  }
}
