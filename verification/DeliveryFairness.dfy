/** How long a due row waits for its turn with one worker, whatever is enqueued meanwhile. */
module DeliveryFairness {
  import opened WebhookRows
  import opened WebhookPolls
  import opened DeliveryAccounting

  /** The order of the claiming query, rows due at the same time by age. */
  predicate Precedes(rows: map<RowId, Row>, a: RowId, b: RowId) {
    a in rows && b in rows &&
    (rows[a].nextAttemptAt < rows[b].nextAttemptAt || (rows[a].nextAttemptAt == rows[b].nextAttemptAt && a < b))
  }

  predicate DueRow(rows: map<RowId, Row>, now: Time, id: RowId) {
    id in rows && Due(rows[id], now)
  }

  ghost function Ids(done: seq<Work>): set<RowId> {
    set k | 0 <= k < |done| :: done[k].id
  }

  ghost predicate Once(done: seq<Work>) {
    forall j, k :: 0 <= j < k < |done| ==> done[j].id != done[k].id
  }

  /** A committed poll at this time: the first ten due rows, each delivered once, earliest first. */
  ghost predicate IsPoll(rows: map<RowId, Row>, now: Time, done: seq<Work>) {
    && Once(done)
    && |done| <= BATCH_SIZE
    && (forall j, k :: 0 <= j < k < |done| ==> Precedes(rows, done[j].id, done[k].id))
    && (forall k :: 0 <= k < |done| ==>
        DueRow(rows, now, done[k].id) && done[k].result.claimedAt == now <= done[k].result.now)
    && (forall id :: DueRow(rows, now, id) && id !in Ids(done) ==>
          |done| == BATCH_SIZE && forall other :: other in Ids(done) ==> Precedes(rows, other, id))
  }

  /** What the claiming query returns when no row is locked. */
  ghost predicate IsClaim(rows: map<RowId, Row>, now: Time, batch: seq<RowId>) {
    && Distinct(batch)
    && |batch| <= BATCH_SIZE
    && (forall k :: 0 <= k < |batch| ==> DueRow(rows, now, batch[k]))
    && (forall j, k :: 0 <= j < k < |batch| ==> Precedes(rows, batch[j], batch[k]))
    && (forall id :: DueRow(rows, now, id) && id !in batch ==>
          |batch| == BATCH_SIZE && forall k :: 0 <= k < |batch| ==> Precedes(rows, batch[k], id))
  }

  /** done delivers the rows of the batch, in order, none before the claim. */
  ghost predicate Delivers(done: seq<Work>, batch: seq<RowId>, now: Time) {
    && |done| == |batch|
    && forall k :: 0 <= k < |done| ==> done[k].id == batch[k] && done[k].result.claimedAt == now <= done[k].result.now
  }

  lemma ClaimIsPoll(rows: map<RowId, Row>, now: Time, batch: seq<RowId>, done: seq<Work>)
    requires IsClaim(rows, now, batch) && Delivers(done, batch, now)
    ensures IsPoll(rows, now, done)
  {
    forall id | id in batch ensures id in Ids(done) {
      var k :| 0 <= k < |batch| && batch[k] == id;
      assert done[k].id == id;
    }
  }

  datatype Round = NewRow(id: RowId, row: Row) | PollRound(now: Time, done: seq<Work>)

  ghost predicate IsRound(rows: map<RowId, Row>, clock: Time, round: Round) {
    match round
    case NewRow(id, row) => (forall x :: x in rows ==> x < id) && Fresh(row) && clock <= row.nextAttemptAt
    case PollRound(now, done) => clock <= now && IsPoll(rows, now, done)
  }

  ghost function AfterRound(rows: map<RowId, Row>, round: Round): map<RowId, Row> {
    match round
    case NewRow(id, row) => rows[id := row]
    case PollRound(_, done) => Serve(rows, done)
  }

  function ClockOf(round: Round): Time {
    match round
    case NewRow(_, row) => row.nextAttemptAt
    case PollRound(now, _) => now
  }

  /** A run of one worker, with events enqueued between its polls, by a clock that does not go back. */
  ghost predicate IsRun(rows: map<RowId, Row>, clock: Time, rounds: seq<Round>)
    decreases |rounds|
  {
    rounds == [] ||
      (IsRound(rows, clock, rounds[0]) && IsRun(AfterRound(rows, rounds[0]), ClockOf(rounds[0]), rounds[1..]))
  }

  function PollCount(rounds: seq<Round>): nat {
    if rounds == [] then 0 else (if rounds[0].PollRound? then 1 else 0) + PollCount(rounds[1..])
  }

  ghost predicate ServedIn(round: Round, id: RowId) {
    round.PollRound? && id in Ids(round.done)
  }

  ghost predicate Served(rounds: seq<Round>, id: RowId) {
    exists k :: 0 <= k < |rounds| && ServedIn(rounds[k], id)
  }

  /** The pending rows ahead of a row. */
  ghost function Ahead(rows: map<RowId, Row>, id: RowId): set<RowId> {
    set x | x in rows && rows[x].status == PENDING && Precedes(rows, x, id)
  }

  /** What a poll leaves behind: its rows are closed or due later than it, all others are as they were. */
  lemma {:induction false} AfterPoll(rows: map<RowId, Row>, done: seq<Work>, now: Time)
    requires Once(done)
    requires forall k :: 0 <= k < |done| ==> done[k].id in rows && done[k].result.claimedAt == now <= done[k].result.now
    ensures Serve(rows, done).Keys == rows.Keys
    ensures forall id :: id in rows && id !in Ids(done) ==> Serve(rows, done)[id] == rows[id]
    ensures forall id :: id in Ids(done) ==> id in rows
    ensures forall id :: id in Ids(done) && Serve(rows, done)[id].status == PENDING && rows[id].status == PENDING ==>
              Serve(rows, done)[id].nextAttemptAt > now
  {
    if done != [] {
      var front, last := done[..|done| - 1], done[|done| - 1];
      assert forall k :: 0 <= k < |front| ==> front[k] == done[k];
      AfterPoll(rows, front, now);
      assert Ids(done) == Ids(front) + {last.id};
      assert last.id !in Ids(front);
    }
  }

  lemma {:induction false} IdsCounted(done: seq<Work>)
    requires Once(done)
    ensures |Ids(done)| == |done|
  {
    if done == [] {
      assert Ids(done) == {};
    } else {
      var front := done[..|done| - 1];
      assert forall k :: 0 <= k < |front| ==> front[k] == done[k];
      IdsCounted(front);
      assert Ids(done) == Ids(front) + {done[|done| - 1].id};
      assert done[|done| - 1].id !in Ids(front);
    }
  }

  lemma Smaller(small: set<RowId>, big: set<RowId>)
    requires small <= big
    ensures |small| <= |big| && |big - small| == |big| - |small|
  {
    assert big == small + (big - small);
  }

  /** A due row is in a poll exactly if fewer than ten pending rows are ahead of it. */
  lemma InBatchIff(rows: map<RowId, Row>, now: Time, done: seq<Work>, id: RowId)
    requires IsPoll(rows, now, done) && DueRow(rows, now, id)
    ensures id in Ids(done) <==> |Ahead(rows, id)| < 10
    ensures id !in Ids(done) ==> Ids(done) <= Ahead(rows, id) && |Ids(done)| == 10
  {
    IdsCounted(done);
    if id in Ids(done) {
      forall x | x in Ahead(rows, id) ensures x in Ids(done) {
        assert DueRow(rows, now, x);
      }
      Smaller(Ahead(rows, id) + {id}, Ids(done));
    } else {
      forall x | x in Ids(done) ensures x in Ahead(rows, id) {
        assert DueRow(rows, now, x);
        assert Precedes(rows, x, id);
      }
      Smaller(Ids(done), Ahead(rows, id));
    }
  }

  /** Retried and closed rows land behind a due row: a poll that leaves it waiting takes exactly its ten
      rows from ahead of it. */
  lemma PollAdvances(rows: map<RowId, Row>, clock: Time, now: Time, done: seq<Work>, id: RowId)
    requires DueRow(rows, clock, id) && clock <= now && IsPoll(rows, now, done) && id !in Ids(done)
    ensures DueRow(Serve(rows, done), now, id)
    ensures |Ahead(Serve(rows, done), id)| == |Ahead(rows, id)| - 10
  {
    AfterPoll(rows, done, now);
    InBatchIff(rows, now, done, id);
    var rows' := Serve(rows, done);
    assert Ahead(rows', id) == Ahead(rows, id) - Ids(done) by {
      forall x ensures x in Ahead(rows', id) <==> x in Ahead(rows, id) - Ids(done) {
        if x in Ids(done) { assert DueRow(rows, now, x); }
      }
    }
    Smaller(Ids(done), Ahead(rows, id));
  }

  /** A new event lands behind it too. */
  lemma NewRowStaysBehind(rows: map<RowId, Row>, clock: Time, round: Round, id: RowId)
    requires DueRow(rows, clock, id) && round.NewRow? && IsRound(rows, clock, round)
    ensures DueRow(AfterRound(rows, round), ClockOf(round), id)
    ensures Ahead(AfterRound(rows, round), id) == Ahead(rows, id)
  {}

  /** With one worker, a due row with r pending rows ahead of it is delivered in poll number
      r / 10 + 1 and not before, however many events are enqueued meanwhile. */
  lemma {:induction false} BoundedOvertaking(rows: map<RowId, Row>, clock: Time, rounds: seq<Round>, id: RowId)
    requires DueRow(rows, clock, id) && IsRun(rows, clock, rounds)
    ensures Served(rounds, id) <==> |Ahead(rows, id)| / 10 + 1 <= PollCount(rounds)
    decreases |rounds|
  {
    if rounds != [] {
      var round, rest := rounds[0], rounds[1..];
      assert Served(rounds, id) <==> ServedIn(round, id) || Served(rest, id) by { ServedSplit(rounds, id); }
      if round.NewRow? {
        NewRowStaysBehind(rows, clock, round, id);
        BoundedOvertaking(AfterRound(rows, round), ClockOf(round), rest, id);
      } else {
        InBatchIff(rows, round.now, round.done, id);
        if id !in Ids(round.done) {
          PollAdvances(rows, clock, round.now, round.done, id);
          BoundedOvertaking(AfterRound(rows, round), ClockOf(round), rest, id);
        }
      }
    }
  }

  lemma ServedSplit(rounds: seq<Round>, id: RowId)
    requires rounds != []
    ensures Served(rounds, id) <==> ServedIn(rounds[0], id) || Served(rounds[1..], id)
  {
    if Served(rounds[1..], id) {
      var k :| 0 <= k < |rounds[1..]| && ServedIn(rounds[1..][k], id);
      assert ServedIn(rounds[k + 1], id);
    }
    if Served(rounds, id) {
      var k :| 0 <= k < |rounds| && ServedIn(rounds[k], id);
      if k > 0 { assert ServedIn(rounds[1..][k - 1], id); }
    }
  }

  /******* Draining *******/

  /** If a row is pending, one is due. */
  ghost predicate HasWork(rows: map<RowId, Row>, now: Time) {
    AnyPending(rows) ==> exists id :: DueRow(rows, now, id)
  }

  /** Polls one after the other, with no new events, none of them too early to find a row. */
  ghost predicate Draining(rows: map<RowId, Row>, rounds: seq<Round>)
    decreases |rounds|
  {
    rounds == [] ||
    (rounds[0].PollRound? && IsPoll(rows, rounds[0].now, rounds[0].done) && HasWork(rows, rounds[0].now)
     && Draining(AfterRound(rows, rounds[0]), rounds[1..]))
  }

  ghost function AfterRounds(rows: map<RowId, Row>, rounds: seq<Round>): map<RowId, Row>
    decreases |rounds|
  {
    if rounds == [] then rows else AfterRounds(AfterRound(rows, rounds[0]), rounds[1..])
  }

  /** A poll is a legitimate sequence of deliveries. */
  lemma {:induction false} PollCanServe(rows: map<RowId, Row>, now: Time, done: seq<Work>)
    requires Once(done)
    requires forall k :: 0 <= k < |done| ==>
               DueRow(rows, now, done[k].id) && done[k].result.claimedAt == now <= done[k].result.now
    ensures CanServe(rows, done)
  {
    if done != [] {
      var front, last := done[..|done| - 1], done[|done| - 1];
      assert forall k :: 0 <= k < |front| ==> front[k] == done[k];
      PollCanServe(rows, now, front);
      AfterPoll(rows, front, now);
      assert last.id !in Ids(front);
    }
  }

  /** A poll that finds a due row delivers one. */
  lemma PollDelivers(rows: map<RowId, Row>, now: Time, done: seq<Work>)
    requires IsPoll(rows, now, done) && HasWork(rows, now) && AnyPending(rows)
    ensures |done| > 0
  {
    var id :| DueRow(rows, now, id);
    assert done == [] ==> id !in Ids(done);
  }

  lemma {:induction false} NothingPendingStays(rows: map<RowId, Row>, rounds: seq<Round>)
    requires Draining(rows, rounds) && !AnyPending(rows)
    ensures !AnyPending(AfterRounds(rows, rounds))
    decreases |rounds|
  {
    if rounds != [] {
      var now, done := rounds[0].now, rounds[0].done;
      assert |done| > 0 ==> DueRow(rows, now, done[0].id);
      NothingPendingStays(AfterRound(rows, rounds[0]), rounds[1..]);
    }
  }

  /** With no new events, after as many polls as the rows have attempts left (at most five each)
      every row is delivered or exhausted, whatever the endpoints answer. */
  lemma {:induction false} OutboxDrains(rows: map<RowId, Row>, rounds: seq<Round>)
    requires Sound(rows) && Draining(rows, rounds) && |rounds| >= Budget(rows)
    ensures !AnyPending(AfterRounds(rows, rounds)) && Budget(rows) <= MAX_ATTEMPTS * |rows|
    decreases |rounds|
  {
    BudgetBounds(rows);
    if AnyPending(rows) {
      var now, done := rounds[0].now, rounds[0].done;
      PollCanServe(rows, now, done);
      PollDelivers(rows, now, done);
      ServeDrains(rows, done);
      OutboxDrains(AfterRound(rows, rounds[0]), rounds[1..]);
    } else {
      NothingPendingStays(rows, rounds);
    }
  }

  /******* The same poll as a transaction among workers *******/

  function IdSeq(done: seq<Work>): (ids: seq<RowId>)
    ensures |ids| == |done| && forall k :: 0 <= k < |done| ==> ids[k] == done[k].id
  {
    seq(|done|, k requires 0 <= k < |done| => done[k].id)
  }

  function DeliverActs(w: WorkerId, done: seq<Work>): seq<Act> {
    if done == [] then [] else DeliverActs(w, done[..|done| - 1]) + [Deliver(w, done[|done| - 1].result)]
  }

  /** The claim and the first k deliveries. */
  function PollActs(w: WorkerId, now: Time, done: seq<Work>, k: nat): seq<Act>
    requires k <= |done|
  {
    [Claim(w, now, IdSeq(done))] + DeliverActs(w, done[..k])
  }

  lemma PollActsSnoc(w: WorkerId, now: Time, done: seq<Work>, k: nat)
    requires k < |done|
    ensures PollActs(w, now, done, k + 1) == PollActs(w, now, done, k) + [Deliver(w, done[k].result)]
  {
    assert done[..k + 1][..k] == done[..k];
  }

  lemma PollActsRun(s: Outbox, w: WorkerId, now: Time, done: seq<Work>, k: nat)
    requires k < |done|
    ensures RunPolls(s, PollActs(w, now, done, k + 1)) ==
            DoDeliver(RunPolls(s, PollActs(w, now, done, k)), w, done[k].result)
  {
    PollActsSnoc(w, now, done, k);
    RunActsSnoc(s, PollActs(w, now, done, k), Deliver(w, done[k].result));
  }

  lemma PollIsBatch(s: Outbox, now: Time, done: seq<Work>)
    requires s.polls == map[] && IsPoll(s.rows, now, done)
    ensures IsBatch(s, now, IdSeq(done))
  {
    var ids := IdSeq(done);
    assert forall id :: Claimable(s, now, id) <==> DueRow(s.rows, now, id);
    forall id ensures id in ids <==> id in Ids(done) {
      if id in Ids(done) {
        var k :| 0 <= k < |done| && done[k].id == id;
        assert ids[k] == id;
      }
    }
    forall id | Claimable(s, now, id) && id !in ids
      ensures |ids| == BATCH_SIZE && forall k :: 0 <= k < |ids| ==> NotLater(s.rows, ids[k], id)
    {
      forall k | 0 <= k < |ids| ensures NotLater(s.rows, ids[k], id) {
        assert Precedes(s.rows, done[k].id, id);
      }
    }
    forall j, k | 0 <= j < k < |ids| ensures NotLater(s.rows, ids[j], ids[k]) {
      assert Precedes(s.rows, done[j].id, done[k].id);
    }
  }

  lemma RunActsSnoc(s: Outbox, acts: seq<Act>, act: Act)
    ensures RunPolls(s, acts + [act]) == Step(RunPolls(s, acts), act)
  {
    assert (acts + [act])[..|acts|] == acts;
  }

  /** The poll is open and has made its first k deliveries. */
  ghost predicate Halfway(s: Outbox, m: Outbox, w: WorkerId, now: Time, done: seq<Work>, k: nat) {
    && k <= |done| && OutboxInv(m) && m.rows == s.rows && m.log == s.log
    && w in m.polls && m.polls[w].claimedAt == now
    && m.polls[w].todo == IdSeq(done)[k..] && m.polls[w].done == done[..k]
  }

  lemma ClaimRuns(s: Outbox, w: WorkerId, now: Time, done: seq<Work>)
    requires OutboxInv(s) && s.polls == map[] && IsPoll(s.rows, now, done)
    ensures Halfway(s, RunPolls(s, [Claim(w, now, IdSeq(done))]), w, now, done, 0)
  {
    assert [] + [Claim(w, now, IdSeq(done))] == [Claim(w, now, IdSeq(done))];
    RunActsSnoc(s, [], Claim(w, now, IdSeq(done)));
    PollIsBatch(s, now, done);
    ClaimKeeps(s, w, now, IdSeq(done));
  }

  lemma {:induction false} DeliveriesRun(s: Outbox, w: WorkerId, now: Time, done: seq<Work>, k: nat)
    requires OutboxInv(s) && s.polls == map[] && IsPoll(s.rows, now, done) && k <= |done|
    ensures Halfway(s, RunPolls(s, PollActs(w, now, done, k)), w, now, done, k)
    decreases k
  {
    if k == 0 {
      ClaimRuns(s, w, now, done);
      assert PollActs(w, now, done, 0) == [Claim(w, now, IdSeq(done))];
    } else {
      PollActsRun(s, w, now, done, k - 1);
      DeliveriesRun(s, w, now, done, k - 1);
      OneMore(s, RunPolls(s, PollActs(w, now, done, k - 1)), w, now, done, k - 1);
    }
  }

  lemma OneMore(s: Outbox, m: Outbox, w: WorkerId, now: Time, done: seq<Work>, k: nat)
    requires Halfway(s, m, w, now, done, k) && k < |done| && done[k].result.claimedAt == now <= done[k].result.now
    ensures Halfway(s, DoDeliver(m, w, done[k].result), w, now, done, k + 1)
  {
    assert PollOk(m.rows, m.polls[w]);
    DeliverKeeps(m, w, done[k].result);
    assert IdSeq(done)[k..][0] == done[k].id && IdSeq(done)[k..][1..] == IdSeq(done)[k + 1..];
    assert done[..k] + [done[k]] == done[..k + 1];
  }

  /** Alone, a worker's claim, deliveries and commit do to the table exactly what the poll says. */
  lemma PollIsTransaction(s: Outbox, w: WorkerId, now: Time, done: seq<Work>)
    requires OutboxInv(s) && s.polls == map[] && IsPoll(s.rows, now, done)
    ensures var s' := RunPolls(s, PollActs(w, now, done, |done|) + [Commit(w)]);
            s'.rows == Serve(s.rows, done) && s'.log == s.log + [Committed(done)]
  {
    var acts := PollActs(w, now, done, |done|);
    DeliveriesRun(s, w, now, done, |done|);
    assert done[..|done|] == done;
    RunActsSnoc(s, acts, Commit(w));
    CommitServes(RunPolls(s, acts), w);
  }

  /** A commit puts into the table what serving the poll's deliveries gives. */
  lemma CommitServes(m: Outbox, w: WorkerId)
    requires OutboxInv(m) && w in m.polls && m.polls[w].todo == []
    ensures DoCommit(m, w).rows == Serve(m.rows, m.polls[w].done)
    ensures DoCommit(m, w).log == m.log + [Committed(m.polls[w].done)]
  {
    assert PollOk(m.rows, m.polls[w]);
  }
}