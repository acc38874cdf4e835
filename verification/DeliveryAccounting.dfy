/** What holds of every outbox row and of the outbox as a whole, whatever the workers do. */
module DeliveryAccounting {
  import opened Options
  import opened WebhookRows
  import opened WebhookPolls
  import opened Sums

  /******* The history of one row *******/

  ghost function ResultsIn(done: seq<Work>, id: RowId): seq<Result> {
    if done == [] then []
    else
      var last := done[|done| - 1];
      ResultsIn(done[..|done| - 1], id) + if last.id == id then [last.result] else []
  }

  /** The committed deliveries of a row. */
  ghost function Results(log: seq<Entry>, id: RowId): seq<Result> {
    if log == [] then []
    else
      var past := Results(log[..|log| - 1], id);
      match log[|log| - 1]
      case Enqueued(_, _) => past
      case Committed(done) => past + ResultsIn(done, id)
  }

  /** The row as it was inserted. */
  ghost function Born(log: seq<Entry>, id: RowId): Option<Row> {
    if log == [] then None
    else if log[|log| - 1].Enqueued? && log[|log| - 1].id == id then Some(log[|log| - 1].row)
    else Born(log[..|log| - 1], id)
  }

  lemma {:induction false} ServeHistory(rows: map<RowId, Row>, done: seq<Work>, id: RowId, born: Row, past: seq<Result>)
    requires CanServe(rows, done)
    requires id in rows ==> Legit(born, past) && rows[id] == Life(born, past)
    ensures id in Serve(rows, done) <==> id in rows
    ensures id in rows ==>
              && Legit(born, past + ResultsIn(done, id))
              && Serve(rows, done)[id] == Life(born, past + ResultsIn(done, id))
    ensures id !in rows ==> ResultsIn(done, id) == []
  {
    if done == [] {
      assert past + [] == past;
    } else {
      var front, last := done[..|done| - 1], done[|done| - 1];
      ServeHistory(rows, front, id, born, past);
      if last.id == id {
        LifeSnoc(born, past + ResultsIn(front, id), last.result);
        assert past + (ResultsIn(front, id) + [last.result]) == past + ResultsIn(front, id) + [last.result];
      } else {
        assert ResultsIn(front, id) + [] == ResultsIn(front, id);
      }
    }
  }

  lemma {:induction false} ReplayHistory(log: seq<Entry>, id: RowId)
    requires CanReplay(log)
    ensures id in Replay(log) <==> Born(log, id).Some?
    ensures id !in Replay(log) ==> Results(log, id) == []
    ensures id in Replay(log) ==>
              && Fresh(Born(log, id).value) && Legit(Born(log, id).value, Results(log, id))
              && Replay(log)[id] == Life(Born(log, id).value, Results(log, id))
  {
    if log != [] {
      var front := log[..|log| - 1];
      ReplayHistory(front, id);
      match log[|log| - 1]
      case Enqueued(_, _) =>
      case Committed(done) =>
        ServeHistory(Replay(front), done, id, Born(front, id).GetOr(Row(0, PENDING, 0, 0, None, None)),
                     Results(front, id));
    }
  }

  /** Every row of every reachable outbox has a history of legitimate deliveries that explains
      it: the counter is the number of committed POSTs, at most five and at most four while
      pending; delivered means that the last POST had a 2xx answer, exhausted that five failed or that
      the endpoint was missing. */
  lemma EveryRowExplained(acts: seq<Act>, s: Outbox, id: RowId)
    requires RunsTo(EMPTY_OUTBOX, acts, s) && id in s.rows
    ensures Born(s.log, id).Some? && Fresh(Born(s.log, id).value)
    ensures var row, born, results := s.rows[id], Born(s.log, id).value, Results(s.log, id);
            && Legit(born, results) && row == Life(born, results)
            && row.attempts == Posts(results) <= MAX_ATTEMPTS
            && (row.status == PENDING ==> row.attempts < MAX_ATTEMPTS)
            && (row.status == DELIVERED <==>
                results != [] && Accepted(results[|results| - 1]))
            && (row.status == EXHAUSTED <==>
                results != [] && (results[|results| - 1].Missing? || (AllFailed(results) && |results| == MAX_ATTEMPTS)))
  {
    WorkersSerialize(acts);
    assert RunPolls(EMPTY_OUTBOX, acts) == s;
    ReplayHistory(s.log, id);
    StatusTellsHistory(Born(s.log, id).value, Results(s.log, id));
  }

  /******* Terminal rows are frozen *******/

  lemma {:induction false} ServeSkipsTerminal(rows: map<RowId, Row>, done: seq<Work>, id: RowId)
    requires CanServe(rows, done) && id in rows && rows[id].status != PENDING
    ensures id in Serve(rows, done) && Serve(rows, done)[id] == rows[id]
  {
    if done != [] { ServeSkipsTerminal(rows, done[..|done| - 1], id); }
  }

  lemma {:induction false} TerminalRowsStay(s: Outbox, acts: seq<Act>, id: RowId)
    requires OutboxInv(s) && id in s.rows && s.rows[id].status != PENDING
    ensures OutboxInv(RunPolls(s, acts))
    ensures id in RunPolls(s, acts).rows && RunPolls(s, acts).rows[id] == s.rows[id]
    decreases |acts|
  {
    if acts != [] {
      var front, act := acts[..|acts| - 1], acts[|acts| - 1];
      TerminalRowsStay(s, front, id);
      TerminalStep(RunPolls(s, front), act, id);
    }
  }

  lemma TerminalStep(s: Outbox, act: Act, id: RowId)
    requires OutboxInv(s) && id in s.rows && s.rows[id].status != PENDING
    ensures OutboxInv(Step(s, act)) && id in Step(s, act).rows && Step(s, act).rows[id] == s.rows[id]
  {
    StepKeepsOutbox(s, act);
    if act.Commit? && act.w in s.polls {
      assert PollOk(s.rows, s.polls[act.w]);
      ServeSkipsTerminal(s.rows, s.polls[act.w].done, id);
    }
  }

  /******* POSTs *******/

  lemma {:induction false} PostsAppend(a: seq<Result>, b: seq<Result>)
    ensures Posts(a + b) == Posts(a) + Posts(b)
    decreases |b|
  {
    if b == [] {
      assert a + b == a;
    } else {
      assert (a + b)[..|a + b| - 1] == a + b[..|b| - 1];
      PostsAppend(a, b[..|b| - 1]);
    }
  }

  lemma {:induction false} PostsCounted(done: seq<Work>, id: RowId)
    ensures PostsIn(done)[id] == Posts(ResultsIn(done, id))
    ensures (forall k :: 0 <= k < |done| ==> done[k].id != id) ==> PostsIn(done)[id] == 0
  {
    if done != [] {
      var front, last := done[..|done| - 1], done[|done| - 1];
      PostsCounted(front, id);
      PostsAppend(ResultsIn(front, id), if last.id == id then [last.result] else []);
      assert [last.result][..0] == [];
    }
  }

  /** POSTs of the row in a poll that is still open. */
  ghost function InFlight(s: Outbox, id: RowId): nat {
    if Locked(s, id) then var w :| LockedBy(s, w, id); PostsIn(s.polls[w].done)[id] else 0
  }

  lemma InFlightIs(s: Outbox, w: WorkerId, id: RowId)
    requires Disjoint(s) && LockedBy(s, w, id)
    ensures InFlight(s, id) == PostsIn(s.polls[w].done)[id]
  {}

  ghost predicate Accounted(s: Outbox, id: RowId) {
    s.posts[id] == Posts(Results(s.log, id)) + s.lost[id] + InFlight(s, id)
  }

  lemma ResultsSnoc(log: seq<Entry>, entry: Entry, id: RowId)
    ensures Results(log + [entry], id) == if entry.Committed? then Results(log, id) + ResultsIn(entry.done, id)
                                          else Results(log, id)
  {
    assert (log + [entry])[..|log|] == log;
  }

  /** What an open poll has posted for a row it has not claimed: nothing. */
  lemma PostsOnlyClaimed(s: Outbox, w: WorkerId, id: RowId)
    requires OutboxInv(s) && w in s.polls && !LockedBy(s, w, id)
    ensures PostsIn(s.polls[w].done)[id] == 0
  {
    assert PollOk(s.rows, s.polls[w]);
    PostsCounted(s.polls[w].done, id);
  }

  /** Closing a poll takes its posts of the row out of flight. */
  lemma ClosedPoll(s: Outbox, s': Outbox, w: WorkerId, id: RowId)
    requires OutboxInv(s) && w in s.polls && s'.polls == s.polls - {w} && Disjoint(s')
    ensures InFlight(s, id) == InFlight(s', id) + PostsIn(s.polls[w].done)[id]
  {
    if LockedBy(s, w, id) {
      InFlightIs(s, w, id);
      assert forall v :: LockedBy(s', v, id) ==> LockedBy(s, v, id);
    } else {
      PostsOnlyClaimed(s, w, id);
      if Locked(s, id) {
        var v :| LockedBy(s, v, id);
        assert LockedBy(s', v, id);
        InFlightIs(s, v, id);
        InFlightIs(s', v, id);
      } else {
        assert forall v :: LockedBy(s', v, id) ==> LockedBy(s, v, id);
      }
    }
  }

  lemma CommitAccounted(s: Outbox, w: WorkerId, id: RowId)
    requires OutboxInv(s) && Accounted(s, id) && w in s.polls && s.polls[w].todo == []
    ensures Accounted(DoCommit(s, w), id)
  {
    var s', done := DoCommit(s, w), s.polls[w].done;
    CommitKeeps(s, w);
    ResultsSnoc(s.log, Committed(done), id);
    PostsAppend(Results(s.log, id), ResultsIn(done, id));
    PostsCounted(done, id);
    ClosedPoll(s, s', w, id);
  }

  lemma ClaimAccounted(s: Outbox, w: WorkerId, now: Time, ids: seq<RowId>, id: RowId)
    requires OutboxInv(s) && Accounted(s, id)
    ensures Accounted(DoClaim(s, w, now, ids), id)
  {
    if w !in s.polls && IsBatch(s, now, ids) {
      var s' := DoClaim(s, w, now, ids);
      ClaimKeeps(s, w, now, ids);
      if id in ids {
        assert Claimable(s, now, id) && LockedBy(s', w, id);
        InFlightIs(s', w, id);
      } else if Locked(s, id) {
        var v :| LockedBy(s, v, id);
        assert LockedBy(s', v, id);
        InFlightIs(s, v, id);
        InFlightIs(s', v, id);
      } else {
        assert forall v :: LockedBy(s', v, id) ==> LockedBy(s, v, id);
      }
    }
  }

  lemma DeliverInFlight(s: Outbox, w: WorkerId, result: Result, id: RowId)
    requires OutboxInv(s) && CanDeliver(s, w, result) && Disjoint(DoDeliver(s, w, result))
    ensures InFlight(DoDeliver(s, w, result), id) == InFlight(s, id) + PostOf(s.polls[w].todo[0], result)[id]
  {
    var s', work := DoDeliver(s, w, result), Work(s.polls[w].todo[0], result);
    ServeSnoc(s.rows, s.polls[w].done, work);
    assert forall v :: LockedBy(s', v, id) <==> LockedBy(s, v, id);
    if Locked(s, id) {
      var v :| LockedBy(s, v, id);
      InFlightIs(s, v, id);
      InFlightIs(s', v, id);
      if v != w { assert LockedBy(s, w, work.id); }
    } else {
      assert LockedBy(s, w, work.id);
    }
  }

  lemma DeliverAccounted(s: Outbox, w: WorkerId, result: Result, id: RowId)
    requires OutboxInv(s) && Accounted(s, id)
    ensures Accounted(DoDeliver(s, w, result), id)
  {
    if CanDeliver(s, w, result) {
      DeliverKeeps(s, w, result);
      DeliverInFlight(s, w, result, id);
    }
  }

  lemma StepAccounted(s: Outbox, act: Act, id: RowId)
    requires OutboxInv(s) && Accounted(s, id)
    ensures Accounted(Step(s, act), id)
  {
    match act
    case Enqueue(x, row) =>
      if x !in s.rows && Fresh(row) {
        ResultsSnoc(s.log, Enqueued(x, row), id);
        assert forall v :: LockedBy(DoEnqueue(s, x, row), v, id) <==> LockedBy(s, v, id);
        EnqueueKeeps(s, x, row);
        if Locked(s, id) {
          var v :| LockedBy(s, v, id);
          InFlightIs(s, v, id);
          InFlightIs(DoEnqueue(s, x, row), v, id);
        }
      }
    case Claim(w, now, ids) => ClaimAccounted(s, w, now, ids, id);
    case Deliver(w, result) => DeliverAccounted(s, w, result, id);
    case Commit(w) => if w in s.polls && s.polls[w].todo == [] { CommitAccounted(s, w, id); }
    case Rollback(w) =>
      RollbackKeeps(s, w);
      if w in s.polls { ClosedPoll(s, DoRollback(s, w), w, id); }
  }

  lemma {:induction false} AllAccounted(acts: seq<Act>, id: RowId)
    ensures Accounted(RunPolls(EMPTY_OUTBOX, acts), id)
    decreases |acts|
  {
    if acts == [] {
      assert forall v :: !LockedBy(EMPTY_OUTBOX, v, id);
    } else {
      var front := acts[..|acts| - 1];
      AllAccounted(front, id);
      WorkersSerialize(front);
      StepAccounted(RunPolls(EMPTY_OUTBOX, front), acts[|acts| - 1], id);
    }
  }

  /** For every row and every run, the POSTs that were made are the attempts the row shows,
      plus those of polls that were rolled back, plus at most those of a poll still open. */
  lemma PostsAccounted(acts: seq<Act>, s: Outbox, id: RowId)
    requires RunsTo(EMPTY_OUTBOX, acts, s)
    ensures s.posts[id] == (if id in s.rows then s.rows[id].attempts else 0) + s.lost[id] + InFlight(s, id)
  {
    AllAccounted(acts, id);
    WorkersSerialize(acts);
    assert RunPolls(EMPTY_OUTBOX, acts) == s;
    ReplayHistory(s.log, id);
    if id in s.rows { EveryRowExplained(acts, s, id); }
  }

  /******* Draining *******/

  /** Deliveries a row can still take. */
  function Left(row: Row): int {
    if row.status == PENDING then MAX_ATTEMPTS - row.attempts else 0
  }

  ghost function Lefts(rows: map<RowId, Row>): map<RowId, int> {
    map id | id in rows :: Left(rows[id])
  }

  ghost function Budget(rows: map<RowId, Row>): int {
    Sum(Lefts(rows))
  }

  ghost predicate Sound(rows: map<RowId, Row>) {
    forall id :: id in rows && rows[id].status == PENDING ==> rows[id].attempts < MAX_ATTEMPTS
  }

  lemma BudgetUpdate(rows: map<RowId, Row>, id: RowId, row: Row)
    ensures Budget(rows[id := row]) == Budget(rows) - (if id in rows then Left(rows[id]) else 0) + Left(row)
  {
    SumUpdate(Lefts(rows), id, Left(row));
    assert Lefts(rows[id := row]) == Lefts(rows)[id := Left(row)];
  }

  /** Every delivery takes at least one from the budget. */
  lemma {:induction false} ServeDrains(rows: map<RowId, Row>, done: seq<Work>)
    requires Sound(rows) && CanServe(rows, done)
    ensures Sound(Serve(rows, done)) && Budget(Serve(rows, done)) + |done| <= Budget(rows)
  {
    if done != [] {
      var front, last := done[..|done| - 1], done[|done| - 1];
      ServeDrains(rows, front);
      BudgetUpdate(Serve(rows, front), last.id, AfterDelivery(Serve(rows, front)[last.id], last.result));
    }
  }

  lemma SoundReachable(acts: seq<Act>, s: Outbox)
    requires RunsTo(EMPTY_OUTBOX, acts, s)
    ensures Sound(s.rows)
  {
    forall id | id in s.rows && s.rows[id].status == PENDING ensures s.rows[id].attempts < MAX_ATTEMPTS {
      EveryRowExplained(acts, s, id);
    }
  }

  ghost function Deliveries(log: seq<Entry>): nat {
    if log == [] then 0
    else Deliveries(log[..|log| - 1]) + if log[|log| - 1].Committed? then |log[|log| - 1].done| else 0
  }

  lemma DeliveriesSnoc(log: seq<Entry>, entry: Entry)
    ensures Deliveries(log + [entry]) == Deliveries(log) + if entry.Committed? then |entry.done| else 0
  {
    assert (log + [entry])[..|log|] == log;
  }

  /** With no new events, the budget falls by at least one per committed delivery. */
  ghost predicate Drains(s: Outbox, s': Outbox) {
    && s'.rows.Keys == s.rows.Keys
    && Budget(s'.rows) + Deliveries(s'.log) <= Budget(s.rows) + Deliveries(s.log)
  }

  lemma CommitDrains(s: Outbox, w: WorkerId)
    requires OutboxInv(s) && Sound(s.rows)
    ensures Sound(DoCommit(s, w).rows) && Drains(s, DoCommit(s, w))
  {
    if w in s.polls && s.polls[w].todo == [] {
      var done := s.polls[w].done;
      assert PollOk(s.rows, s.polls[w]);
      ServeDrains(s.rows, done);
      DeliveriesSnoc(s.log, Committed(done));
      assert (s.rows + s.polls[w].copies).Keys == s.rows.Keys;
    }
  }

  lemma {:induction false} RunDrains(s: Outbox, acts: seq<Act>)
    requires OutboxInv(s) && Sound(s.rows) && forall k :: 0 <= k < |acts| ==> !acts[k].Enqueue?
    ensures OutboxInv(RunPolls(s, acts)) && Sound(RunPolls(s, acts).rows) && Drains(s, RunPolls(s, acts))
    decreases |acts|
  {
    if acts != [] {
      var front, act := acts[..|acts| - 1], acts[|acts| - 1];
      var m := RunPolls(s, front);
      RunDrains(s, front);
      StepKeepsOutbox(m, act);
      assert act == acts[|acts| - 1];
      if act.Commit? { CommitDrains(m, act.w); }
    }
  }

  lemma OneMoreTimes(bound: int, n: nat)
    ensures bound * (n + 1) == bound * n + bound
  {}

  lemma {:induction false} SumAtMost(m: map<RowId, int>, bound: int)
    requires forall id :: id in m ==> m[id] <= bound
    ensures Sum(m) <= bound * |m|
    decreases m.Keys
  {
    if m.Keys != {} {
      var k :| k in m.Keys;
      SumExtract(m, k);
      var rest := m - {k};
      assert rest.Keys == m.Keys - {k};
      SumAtMost(rest, bound);
      OneMoreTimes(bound, |rest|);
    }
  }

  lemma BudgetBounds(rows: map<RowId, Row>)
    requires Sound(rows)
    ensures 0 <= Budget(rows) <= MAX_ATTEMPTS * |rows|
    ensures Budget(rows) == 0 <==> forall id :: id in rows ==> rows[id].status != PENDING
  {
    var lefts := Lefts(rows);
    assert lefts.Keys == rows.Keys;
    SumNonNegative(lefts);
    SumAtMost(lefts, MAX_ATTEMPTS);
    if id: RowId :| id in rows && rows[id].status == PENDING {
      SumExtract(lefts, id);
      SumNonNegative(lefts - {id});
    } else {
      SumAtMost(lefts, 0);
    }
  }

  /** With no new events, an outbox of n rows takes at most as many deliveries as its budget,
      which is at most 5n, by any workers in any order; when that many are committed, no row is
      pending. */
  lemma DeliveriesBounded(before: seq<Act>, s: Outbox, acts: seq<Act>, s': Outbox)
    requires RunsTo(EMPTY_OUTBOX, before, s) && RunsTo(s, acts, s')
    requires forall k :: 0 <= k < |acts| ==> !acts[k].Enqueue?
    ensures Deliveries(s'.log) - Deliveries(s.log) <= Budget(s.rows) <= MAX_ATTEMPTS * |s.rows|
    ensures Deliveries(s'.log) - Deliveries(s.log) == Budget(s.rows) ==>
              forall id :: id in s'.rows ==> s'.rows[id].status != PENDING
  {
    WorkersSerialize(before);
    SoundReachable(before, s);
    assert RunPolls(EMPTY_OUTBOX, before) == s && RunPolls(s, acts) == s';
    RunDrains(s, acts);
    BudgetBounds(s.rows);
    BudgetBounds(s'.rows);
  }

  /******* Progress *******/

  ghost predicate AnyPending(rows: map<RowId, Row>) {
    exists id :: id in rows && rows[id].status == PENDING
  }

  /** The act commits a poll all of whose rows have been delivered. */
  ghost predicate CommitsPoll(s: Outbox, act: Act) {
    act.Commit? && act.w in s.polls && s.polls[act.w].todo == []
  }

  ghost function Commits(s: Outbox, acts: seq<Act>): nat {
    if acts == [] then 0
    else
      var front := acts[..|acts| - 1];
      Commits(s, front) + if CommitsPoll(RunPolls(s, front), acts[|acts| - 1]) then 1 else 0
  }

  /** While a row is pending, a poll that commits has delivered something. */
  ghost predicate Works(s: Outbox, act: Act) {
    CommitsPoll(s, act) && AnyPending(s.rows) ==> s.polls[act.w].done != []
  }

  /** No new events, and no poll commits with nothing delivered while a row is pending. */
  ghost predicate KeepsWorking(s: Outbox, acts: seq<Act>) {
    acts == [] ||
    var front, act := acts[..|acts| - 1], acts[|acts| - 1];
    KeepsWorking(s, front) && !act.Enqueue? && Works(RunPolls(s, front), act)
  }

  lemma StepDrains(s: Outbox, act: Act)
    requires OutboxInv(s) && Sound(s.rows) && !act.Enqueue? && Works(s, act)
    ensures OutboxInv(Step(s, act)) && Sound(Step(s, act).rows)
    ensures AnyPending(Step(s, act).rows) ==> AnyPending(s.rows)
    ensures AnyPending(Step(s, act).rows) ==>
              Budget(Step(s, act).rows) + (if CommitsPoll(s, act) then 1 else 0) <= Budget(s.rows)
  {
    StepKeepsOutbox(s, act);
    if CommitsPoll(s, act) {
      var done := s.polls[act.w].done;
      assert PollOk(s.rows, s.polls[act.w]);
      ServeDrains(s.rows, done);
      assert Step(s, act).rows == Serve(s.rows, done);
      BudgetBounds(s.rows);
      BudgetBounds(Serve(s.rows, done));
    } else {
      assert Step(s, act).rows == s.rows;
    }
  }

  lemma {:induction false} RunProgresses(s: Outbox, acts: seq<Act>)
    requires OutboxInv(s) && Sound(s.rows) && KeepsWorking(s, acts)
    ensures OutboxInv(RunPolls(s, acts)) && Sound(RunPolls(s, acts).rows)
    ensures AnyPending(RunPolls(s, acts).rows) ==> Budget(RunPolls(s, acts).rows) + Commits(s, acts) <= Budget(s.rows)
    decreases |acts|
  {
    if acts != [] {
      var front := acts[..|acts| - 1];
      RunProgresses(s, front);
      StepDrains(RunPolls(s, front), acts[|acts| - 1]);
    }
  }

  /** With any number of workers and any rollbacks, after as many committed polls as the rows
      have attempts left (at most five each), every row is delivered or exhausted: provided
      that no new event arrives and that no poll commits empty-handed while a row is pending. */
  lemma WorkersDrain(before: seq<Act>, s: Outbox, acts: seq<Act>, s': Outbox)
    requires RunsTo(EMPTY_OUTBOX, before, s) && RunsTo(s, acts, s')
    requires KeepsWorking(s, acts) && Commits(s, acts) >= Budget(s.rows)
    ensures !AnyPending(s'.rows) && Budget(s.rows) <= MAX_ATTEMPTS * |s.rows|
  {
    WorkersSerialize(before);
    SoundReachable(before, s);
    assert RunPolls(EMPTY_OUTBOX, before) == s && RunPolls(s, acts) == s';
    RunProgresses(s, acts);
    BudgetBounds(s.rows);
    BudgetBounds(s'.rows);
  }
}
