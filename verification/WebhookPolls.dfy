/** Any number of workers polling one outbox: claims with SKIP LOCKED, a transaction per
    batch, POSTs that a rollback does not take back. */
module WebhookPolls {
  import opened WebhookRows

  type WorkerId = nat

  datatype Work = Work(id: RowId, result: Result)

  /** An open poll transaction: the rows as it read them at the claim (and has changed them
      since), the rows still to deliver, and the deliveries made. */
  datatype Poll = Poll(claimedAt: Time, copies: map<RowId, Row>, todo: seq<RowId>, done: seq<Work>)

  /** What was committed, in order. */
  datatype Entry = Enqueued(id: RowId, row: Row) | Committed(done: seq<Work>)

  /** rows: the committed table. log, posts and lost observe: the commits, every POST made,
      and those among them whose poll was rolled back. */
  datatype Outbox = Outbox(rows: map<RowId, Row>, polls: map<WorkerId, Poll>,
                           log: seq<Entry>, posts: multiset<RowId>, lost: multiset<RowId>)

  const EMPTY_OUTBOX: Outbox := Outbox(map[], map[], [], multiset{}, multiset{})

  const BATCH_SIZE: nat := 10

  ghost predicate LockedBy(s: Outbox, w: WorkerId, id: RowId) {
    w in s.polls && id in s.polls[w].copies
  }

  ghost predicate Locked(s: Outbox, id: RowId) {
    exists w :: LockedBy(s, w, id)
  }

  ghost predicate Claimable(s: Outbox, now: Time, id: RowId) {
    id in s.rows && Due(s.rows[id], now) && !Locked(s, id)
  }

  ghost predicate Distinct(ids: seq<RowId>) {
    forall j, k :: 0 <= j < k < |ids| ==> ids[j] != ids[k]
  }

  predicate NotLater(rows: map<RowId, Row>, first: RowId, second: RowId) {
    first in rows && second in rows && rows[first].nextAttemptAt <= rows[second].nextAttemptAt
  }

  /** ids is an answer of the claiming query: up to ten claimable rows, the earliest due first;
      rows due at the same time in any order. */
  ghost predicate IsBatch(s: Outbox, now: Time, ids: seq<RowId>) {
    && Distinct(ids)
    && |ids| <= BATCH_SIZE
    && (forall id :: id in ids ==> Claimable(s, now, id))
    && (forall j, k :: 0 <= j < k < |ids| ==> NotLater(s.rows, ids[j], ids[k]))
    && (forall id :: Claimable(s, now, id) && id !in ids ==>
          |ids| == BATCH_SIZE && forall k :: 0 <= k < |ids| ==> NotLater(s.rows, ids[k], id))
  }

  datatype Act =
    | Enqueue(id: RowId, row: Row)
    | Claim(w: WorkerId, now: Time, ids: seq<RowId>)
    | Deliver(w: WorkerId, result: Result)
    | Commit(w: WorkerId)
    | Rollback(w: WorkerId)

  function PostOf(id: RowId, result: Result): multiset<RowId> {
    if result.Posted? then multiset{id} else multiset{}
  }

  function PostsIn(done: seq<Work>): multiset<RowId> {
    if done == [] then multiset{}
    else PostsIn(done[..|done| - 1]) + PostOf(done[|done| - 1].id, done[|done| - 1].result)
  }

  ghost function DoEnqueue(s: Outbox, id: RowId, row: Row): Outbox {
    if id in s.rows || !Fresh(row) then s
    else s.(rows := s.rows + map[id := row], log := s.log + [Enqueued(id, row)])
  }

  ghost function DoClaim(s: Outbox, w: WorkerId, now: Time, ids: seq<RowId>): Outbox {
    if w in s.polls || !IsBatch(s, now, ids) then s
    else s.(polls := s.polls[w := Poll(now, map id | id in ids :: s.rows[id], ids, [])])
  }

  /** The transaction changes its own copy of the row. */
  function AfterOne(poll: Poll, result: Result): Poll
    requires poll.todo != [] && poll.todo[0] in poll.copies
  {
    var id := poll.todo[0];
    Poll(poll.claimedAt, poll.copies[id := AfterDelivery(poll.copies[id], result)], poll.todo[1..],
         poll.done + [Work(id, result)])
  }

  ghost predicate CanDeliver(s: Outbox, w: WorkerId, result: Result) {
    && w in s.polls && s.polls[w].todo != [] && s.polls[w].todo[0] in s.polls[w].copies
    && result.claimedAt == s.polls[w].claimedAt <= result.now
  }

  ghost function DoDeliver(s: Outbox, w: WorkerId, result: Result): Outbox {
    if !CanDeliver(s, w, result) then s
    else s.(polls := s.polls[w := AfterOne(s.polls[w], result)], posts := s.posts + PostOf(s.polls[w].todo[0], result))
  }

  /** The transaction writes its copies over the rows, whatever they hold by then. */
  ghost function DoCommit(s: Outbox, w: WorkerId): Outbox {
    if w !in s.polls || s.polls[w].todo != [] then s
    else s.(rows := s.rows + s.polls[w].copies, polls := s.polls - {w}, log := s.log + [Committed(s.polls[w].done)])
  }

  ghost function DoRollback(s: Outbox, w: WorkerId): Outbox {
    if w !in s.polls then s
    else s.(polls := s.polls - {w}, lost := s.lost + PostsIn(s.polls[w].done))
  }

  ghost function Step(s: Outbox, act: Act): Outbox {
    match act
    case Enqueue(id, row) => DoEnqueue(s, id, row)
    case Claim(w, now, ids) => DoClaim(s, w, now, ids)
    case Deliver(w, result) => DoDeliver(s, w, result)
    case Commit(w) => DoCommit(s, w)
    case Rollback(w) => DoRollback(s, w)
  }

  ghost function RunPolls(s: Outbox, acts: seq<Act>): Outbox {
    if acts == [] then s else Step(RunPolls(s, acts[..|acts| - 1]), acts[|acts| - 1])
  }

  /** s' is the outbox after the run. (Quantified, so that a proof unfolds the run only where it asks for it.) */
  ghost predicate RunsTo(s: Outbox, acts: seq<Act>, s': Outbox) {
    forall a :: a == acts ==> RunPolls(s, a) == s'
  }

  /******* One worker after the other *******/

  /** The deliveries done one by one on the table itself. */
  ghost function Serve(rows: map<RowId, Row>, done: seq<Work>): map<RowId, Row> {
    if done == [] then rows
    else
      var before, last := Serve(rows, done[..|done| - 1]), done[|done| - 1];
      if last.id in before then before[last.id := AfterDelivery(before[last.id], last.result)] else before
  }

  ghost predicate CanServe(rows: map<RowId, Row>, done: seq<Work>) {
    done == [] ||
    var front, last := done[..|done| - 1], done[|done| - 1];
    && CanServe(rows, front)
    && last.id in Serve(rows, front)
    && Due(Serve(rows, front)[last.id], last.result.claimedAt) && last.result.claimedAt <= last.result.now
  }

  ghost function ReplayEntry(rows: map<RowId, Row>, entry: Entry): map<RowId, Row> {
    match entry
    case Enqueued(id, row) => rows + map[id := row]
    case Committed(done) => Serve(rows, done)
  }

  /** A new row has a new id; every delivery is of a row that is due. */
  ghost predicate CanReplayEntry(rows: map<RowId, Row>, entry: Entry) {
    match entry
    case Enqueued(id, row) => id !in rows && Fresh(row)
    case Committed(done) => CanServe(rows, done)
  }

  /** The table after the log, entry by entry. */
  ghost function Replay(log: seq<Entry>): map<RowId, Row> {
    if log == [] then map[] else ReplayEntry(Replay(log[..|log| - 1]), log[|log| - 1])
  }

  ghost predicate CanReplay(log: seq<Entry>) {
    log == [] || (CanReplay(log[..|log| - 1]) && CanReplayEntry(Replay(log[..|log| - 1]), log[|log| - 1]))
  }

  lemma ReplaySnoc(log: seq<Entry>, entry: Entry)
    ensures Replay(log + [entry]) == ReplayEntry(Replay(log), entry)
    ensures CanReplay(log + [entry]) <==> CanReplay(log) && CanReplayEntry(Replay(log), entry)
  {
    assert (log + [entry])[..|log|] == log;
  }

  lemma ServeSnoc(rows: map<RowId, Row>, done: seq<Work>, work: Work)
    ensures Serve(rows, done + [work]) ==
            var before := Serve(rows, done);
            if work.id in before then before[work.id := AfterDelivery(before[work.id], work.result)] else before
    ensures CanServe(rows, done + [work]) <==>
            && CanServe(rows, done) && work.id in Serve(rows, done)
            && Due(Serve(rows, done)[work.id], work.result.claimedAt) && work.result.claimedAt <= work.result.now
    ensures PostsIn(done + [work]) == PostsIn(done) + PostOf(work.id, work.result)
  {
    assert (done + [work])[..|done|] == done;
  }

  ghost predicate Touches(done: seq<Work>, ids: set<RowId>) {
    exists k :: 0 <= k < |done| && done[k].id in ids
  }

  /** Rows that are not served can change before or after. */
  lemma {:induction false} ServeBeside(rows: map<RowId, Row>, other: map<RowId, Row>, done: seq<Work>)
    requires !Touches(done, other.Keys)
    ensures Serve(rows + other, done) == Serve(rows, done) + other
    ensures CanServe(rows, done) ==> CanServe(rows + other, done)
  {
    if done != [] {
      var front, last := done[..|done| - 1], done[|done| - 1];
      assert !Touches(front, other.Keys) by {
        assert forall k :: 0 <= k < |front| ==> front[k] == done[k];
      }
      ServeBeside(rows, other, front);
      assert last.id !in other.Keys by { assert done[|done| - 1].id == last.id; }
      assert rows + other == rows + other;
    } else {
      assert Serve(rows + other, done) == rows + other;
    }
  }

  /******* The invariant *******/

  /** The rows still to deliver are as the poll read them. */
  ghost predicate TodoOk(rows: map<RowId, Row>, poll: Poll) {
    && Distinct(poll.todo)
    && (forall id :: id in poll.todo ==>
        id in poll.copies && id in rows && poll.copies[id] == rows[id] && Due(rows[id], poll.claimedAt))
  }

  /** What the poll will commit is what serving its deliveries on the committed table would give. */
  ghost predicate DoneOk(rows: map<RowId, Row>, poll: Poll) {
    && poll.copies.Keys <= rows.Keys
    && (forall k :: 0 <= k < |poll.done| ==> poll.done[k].id in poll.copies)
    && CanServe(rows, poll.done)
    && rows + poll.copies == Serve(rows, poll.done)
  }

  ghost predicate PollOk(rows: map<RowId, Row>, poll: Poll) {
    TodoOk(rows, poll) && DoneOk(rows, poll)
  }

  ghost predicate PollsOk(s: Outbox) {
    forall w :: w in s.polls ==> PollOk(s.rows, s.polls[w])
  }

  /** No row is claimed by two workers. */
  ghost predicate Disjoint(s: Outbox) {
    forall v, w, id :: LockedBy(s, v, id) && LockedBy(s, w, id) ==> v == w
  }

  ghost predicate OutboxInv(s: Outbox) {
    PollsOk(s) && Disjoint(s) && s.rows == Replay(s.log) && CanReplay(s.log)
  }

  ghost predicate Apart(m: map<RowId, Row>, other: map<RowId, Row>) {
    forall id :: id in m ==> id !in other
  }

  /** A poll is not disturbed by a commit that writes none of its rows. */
  lemma PollFrame(rows: map<RowId, Row>, other: map<RowId, Row>, poll: Poll)
    requires PollOk(rows, poll) && Apart(poll.copies, other)
    ensures PollOk(rows + other, poll)
  {
    assert !Touches(poll.done, other.Keys);
    ServeBeside(rows, other, poll.done);
    OverlaySwap(rows, other, poll.copies);
  }

  lemma OverlaySwap(rows: map<RowId, Row>, other: map<RowId, Row>, copies: map<RowId, Row>)
    requires Apart(copies, other)
    ensures rows + other + copies == rows + copies + other
  {}

  lemma PollsFrame(s: Outbox, other: map<RowId, Row>)
    requires PollsOk(s) && forall w :: w in s.polls ==> Apart(s.polls[w].copies, other)
    ensures PollsOk(s.(rows := s.rows + other))
  {
    forall w | w in s.polls ensures PollOk(s.rows + other, s.polls[w]) {
      PollFrame(s.rows, other, s.polls[w]);
    }
  }

  lemma DisjointFrame(s: Outbox, s': Outbox)
    requires Disjoint(s)
    requires forall w :: w in s'.polls ==>
               w in s.polls && s'.polls[w].copies.Keys <= s.polls[w].copies.Keys
    ensures Disjoint(s')
  {
    forall v, w, id | LockedBy(s', v, id) && LockedBy(s', w, id) ensures v == w {
      assert LockedBy(s, v, id) && LockedBy(s, w, id);
    }
  }

  lemma NewRowKeepsPolls(s: Outbox, id: RowId, row: Row)
    requires PollsOk(s) && id !in s.rows
    ensures PollsOk(s.(rows := s.rows + map[id := row]))
  {
    forall w | w in s.polls ensures Apart(s.polls[w].copies, map[id := row]) {
      assert PollOk(s.rows, s.polls[w]);
    }
    PollsFrame(s, map[id := row]);
  }

  lemma EnqueueKeeps(s: Outbox, id: RowId, row: Row)
    requires OutboxInv(s)
    ensures OutboxInv(DoEnqueue(s, id, row))
  {
    if id !in s.rows && Fresh(row) {
      var s' := DoEnqueue(s, id, row);
      NewRowKeepsPolls(s, id, row);
      ReplaySnoc(s.log, Enqueued(id, row));
      DisjointFrame(s, s');
    }
  }

  lemma ClaimKeeps(s: Outbox, w: WorkerId, now: Time, ids: seq<RowId>)
    requires OutboxInv(s)
    ensures OutboxInv(DoClaim(s, w, now, ids))
  {
    if w !in s.polls && IsBatch(s, now, ids) {
      var s' := DoClaim(s, w, now, ids);
      assert s.rows + s'.polls[w].copies == s.rows;
      forall v | v in s'.polls ensures PollOk(s'.rows, s'.polls[v]) {
        if v != w { assert PollOk(s.rows, s.polls[v]); }
      }
      forall v, u, id | LockedBy(s', v, id) && LockedBy(s', u, id) ensures v == u {
        if v != w { assert LockedBy(s, v, id); }
        if u != w { assert LockedBy(s, u, id); }
      }
    }
  }

  lemma OverlayUpdate(rows: map<RowId, Row>, copies: map<RowId, Row>, id: RowId, row: Row)
    requires id in copies
    ensures rows + copies[id := row] == (rows + copies)[id := row] && (rows + copies)[id] == copies[id]
  {}

  lemma DeliverTodoOk(rows: map<RowId, Row>, poll: Poll, result: Result)
    requires TodoOk(rows, poll) && poll.todo != []
    ensures poll.todo[0] in poll.copies && TodoOk(rows, AfterOne(poll, result))
  {
    assert forall x :: x in poll.todo[1..] ==> x in poll.todo && x != poll.todo[0];
  }

  lemma DeliverDoneOk(rows: map<RowId, Row>, poll: Poll, result: Result)
    requires PollOk(rows, poll) && poll.todo != [] && result.claimedAt == poll.claimedAt <= result.now
    ensures poll.todo[0] in poll.copies && DoneOk(rows, AfterOne(poll, result))
  {
    var id := poll.todo[0];
    ServeSnoc(rows, poll.done, Work(id, result));
    OverlayUpdate(rows, poll.copies, id, AfterDelivery(poll.copies[id], result));
  }

  lemma DeliverPollOk(rows: map<RowId, Row>, poll: Poll, result: Result)
    requires PollOk(rows, poll) && poll.todo != [] && result.claimedAt == poll.claimedAt <= result.now
    ensures poll.todo[0] in poll.copies && PollOk(rows, AfterOne(poll, result))
  {
    DeliverTodoOk(rows, poll, result);
    DeliverDoneOk(rows, poll, result);
  }

  lemma OnePollChanges(s: Outbox, s': Outbox, w: WorkerId)
    requires PollsOk(s) && s'.rows == s.rows && w in s'.polls && s'.polls == s.polls[w := s'.polls[w]] &&
             PollOk(s'.rows, s'.polls[w])
    ensures PollsOk(s')
  {
    forall v | v in s'.polls ensures PollOk(s'.rows, s'.polls[v]) {
      if v != w { assert PollOk(s.rows, s.polls[v]); }
    }
  }

  lemma DeliverKeeps(s: Outbox, w: WorkerId, result: Result)
    requires OutboxInv(s)
    ensures OutboxInv(DoDeliver(s, w, result))
  {
    if CanDeliver(s, w, result) {
      var s' := DoDeliver(s, w, result);
      assert PollOk(s.rows, s.polls[w]);
      DeliverPollOk(s.rows, s.polls[w], result);
      OnePollChanges(s, s', w);
      DisjointFrame(s, s');
    }
  }

  lemma CommitKeeps(s: Outbox, w: WorkerId)
    requires OutboxInv(s)
    ensures OutboxInv(DoCommit(s, w))
  {
    if w in s.polls && s.polls[w].todo == [] {
      var s', poll := DoCommit(s, w), s.polls[w];
      var rest := s.(polls := s.polls - {w});
      assert PollOk(s.rows, poll);
      ReplaySnoc(s.log, Committed(poll.done));
      forall v | v in rest.polls ensures PollOk(s.rows, s.polls[v]) && Apart(s.polls[v].copies, poll.copies) {
        forall id | id in poll.copies ensures id !in s.polls[v].copies {
          assert LockedBy(s, w, id);
          assert !LockedBy(s, v, id);
        }
      }
      PollsFrame(rest, poll.copies);
      DisjointFrame(s, s');
    }
  }

  lemma RollbackKeeps(s: Outbox, w: WorkerId)
    requires OutboxInv(s)
    ensures OutboxInv(DoRollback(s, w))
  {
    var s' := DoRollback(s, w);
    forall v | v in s'.polls ensures PollOk(s'.rows, s'.polls[v]) {
      assert PollOk(s.rows, s.polls[v]);
    }
    DisjointFrame(s, s');
  }

  lemma StepKeepsOutbox(s: Outbox, act: Act)
    requires OutboxInv(s)
    ensures OutboxInv(Step(s, act))
  {
    match act
    case Enqueue(id, row) => EnqueueKeeps(s, id, row);
    case Claim(w, now, ids) => ClaimKeeps(s, w, now, ids);
    case Deliver(w, result) => DeliverKeeps(s, w, result);
    case Commit(w) => CommitKeeps(s, w);
    case Rollback(w) => RollbackKeeps(s, w);
  }

  /** Whatever the workers do: no two hold the same row, and the committed table is what the
      committed polls give when they are run one after the other in commit order, each
      delivery on a row that is pending and due at its turn. So no attempt is lost or counted
      twice. */
  lemma {:induction false} WorkersSerialize(acts: seq<Act>)
    ensures OutboxInv(RunPolls(EMPTY_OUTBOX, acts))
    decreases |acts|
  {
    if acts != [] {
      WorkersSerialize(acts[..|acts| - 1]);
      StepKeepsOutbox(RunPolls(EMPTY_OUTBOX, acts[..|acts| - 1]), acts[|acts| - 1]);
    }
  }
}
