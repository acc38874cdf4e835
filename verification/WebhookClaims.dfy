/** What a claim takes and what its commit delivers, with any number of workers at work. */
module WebhookClaims {
  import opened WebhookRows
  import opened WebhookPolls

  /** Pending, due by now, and held by no open poll. */
  ghost predicate Free(s: Outbox, now: Time, id: RowId) {
    && id in s.rows && s.rows[id].status == PENDING && s.rows[id].nextAttemptAt <= now
    && forall w :: w in s.polls ==> id !in s.polls[w].copies
  }

  /** The free rows that are due strictly before this one. */
  ghost function Earlier(s: Outbox, now: Time, id: RowId): set<RowId>
    requires id in s.rows
  {
    set x | x in s.rows && Free(s, now, x) && s.rows[x].nextAttemptAt < s.rows[id].nextAttemptAt
  }

  /** The other free rows that are due no later than this one. */
  ghost function NotAfter(s: Outbox, now: Time, id: RowId): set<RowId>
    requires id in s.rows
  {
    set x | x in s.rows && x != id && Free(s, now, x) && s.rows[x].nextAttemptAt <= s.rows[id].nextAttemptAt
  }

  ghost predicate Claims(s: Outbox, w: WorkerId, now: Time, ids: seq<RowId>) {
    w !in s.polls && w in DoClaim(s, w, now, ids).polls
  }

  lemma FreeIsClaimable(s: Outbox, now: Time, id: RowId)
    ensures Free(s, now, id) <==> Claimable(s, now, id)
  {
    forall w ensures LockedBy(s, w, id) <==> w in s.polls && id in s.polls[w].copies {}
  }

  lemma {:induction false} DistinctCount(ids: seq<RowId>, all: set<RowId>)
    requires Distinct(ids) && forall id :: id in all <==> id in ids
    ensures |all| == |ids|
    decreases |ids|
  {
    if ids == [] {
      assert all == {};
    } else {
      var front, last := ids[..|ids| - 1], ids[|ids| - 1];
      assert last !in front;
      assert ids == front + [last];
      DistinctCount(front, all - {last});
    }
  }

  lemma SubsetCount(small: set<RowId>, big: set<RowId>)
    requires small <= big
    ensures |small| <= |big|
  {
    assert big == small + (big - small);
  }

  /** A claim takes at most ten rows, earliest first, all of them free; a row it takes has fewer than ten free
      rows due strictly before it, and a free row it leaves has at least ten due no later. The
      poll then holds copies of exactly these rows, as they are in the table. */
  lemma ClaimTakesEarliest(s: Outbox, w: WorkerId, now: Time, ids: seq<RowId>, id: RowId)
    requires Claims(s, w, now, ids)
    ensures |ids| <= 10 && forall j, k :: 0 <= j < k < |ids| ==> NotLater(s.rows, ids[j], ids[k]) && ids[j] != ids[k]
    ensures id in ids ==> Free(s, now, id) && |Earlier(s, now, id)| < 10
    ensures Free(s, now, id) && id !in ids ==> |ids| == 10 && |NotAfter(s, now, id)| >= 10
    ensures var poll := DoClaim(s, w, now, ids).polls[w];
            && poll.claimedAt == now && poll.todo == ids && poll.done == []
            && (id in poll.copies <==> id in ids) && (id in ids ==> poll.copies[id] == s.rows[id])
  {
    var all := set x | x in ids;
    DistinctCount(ids, all);
    forall x ensures Free(s, now, x) <==> Claimable(s, now, x) { FreeIsClaimable(s, now, x); }
    if id in ids {
      var k :| 0 <= k < |ids| && ids[k] == id;
      assert forall x :: Claimable(s, now, x) && x !in ids ==> NotLater(s.rows, ids[k], x);
      assert Claimable(s, now, id) && Earlier(s, now, id) <= all - {id};
      SubsetCount(Earlier(s, now, id), all - {id});
    } else if Free(s, now, id) {
      forall x | x in all ensures x in NotAfter(s, now, id) {
        var k :| 0 <= k < |ids| && ids[k] == x;
        assert Claimable(s, now, x) && NotLater(s.rows, ids[k], id);
      }
      SubsetCount(all, NotAfter(s, now, id));
    }
  }

  /******* A commit delivers the whole batch *******/

  ghost predicate DeliveredIn(done: seq<Work>, id: RowId) {
    exists k :: 0 <= k < |done| && done[k].id == id
  }

  /** Every row of the poll is still to deliver or has been delivered, and not twice. */
  ghost predicate Whole(poll: Poll) {
    && Distinct(poll.todo)
    && (forall j, k :: 0 <= j < k < |poll.done| ==> poll.done[j].id != poll.done[k].id)
    && (forall id :: id in poll.copies <==> id in poll.todo || DeliveredIn(poll.done, id))
    && (forall id :: id in poll.todo ==> !DeliveredIn(poll.done, id))
  }

  lemma OneMoreDelivered(poll: Poll, result: Result)
    requires Whole(poll) && poll.todo != [] && poll.todo[0] in poll.copies
    ensures Whole(AfterOne(poll, result))
  {
    var first, poll' := poll.todo[0], AfterOne(poll, result);
    forall id ensures DeliveredIn(poll'.done, id) <==> DeliveredIn(poll.done, id) || id == first {
      if DeliveredIn(poll.done, id) {
        var k :| 0 <= k < |poll.done| && poll.done[k].id == id;
        assert poll'.done[k].id == id;
      }
      assert poll'.done[|poll.done|].id == first;
    }
    assert poll.todo == [first] + poll'.todo;
    forall j, k | 0 <= j < k < |poll'.done| ensures poll'.done[j].id != poll'.done[k].id {
      if k == |poll.done| { assert DeliveredIn(poll.done, poll.done[j].id); }
    }
  }

  lemma {:induction false} PollsAreWhole(acts: seq<Act>, w: WorkerId)
    ensures var s := RunPolls(EMPTY_OUTBOX, acts); w in s.polls ==> Whole(s.polls[w])
    decreases |acts|
  {
    if acts != [] {
      var front, act := acts[..|acts| - 1], acts[|acts| - 1];
      var s := RunPolls(EMPTY_OUTBOX, front);
      PollsAreWhole(front, w);
      match act
      case Claim(v, now, ids) =>
        if v == w && w !in s.polls && w in DoClaim(s, w, now, ids).polls { NewPollIsWhole(s, w, now, ids); }
      case Deliver(v, result) => if v == w && CanDeliver(s, w, result) { OneMoreDelivered(s.polls[w], result); }
      case _ =>
    }
  }

  lemma NewPollIsWhole(s: Outbox, w: WorkerId, now: Time, ids: seq<RowId>)
    requires Claims(s, w, now, ids)
    ensures Whole(DoClaim(s, w, now, ids).polls[w])
  {
    assert forall id :: !DeliveredIn([], id);
  }

  /** The entry that the commit of worker w adds to the log, if it commits. */
  ghost predicate LogsCommit(s: Outbox, w: WorkerId, done: seq<Work>) {
    DoCommit(s, w).log == s.log + [Committed(done)]
  }

  /** A poll that commits has delivered every row it held, each exactly once. */
  lemma CommitDeliversBatch(acts: seq<Act>, s: Outbox, w: WorkerId, done: seq<Work>)
    requires RunsTo(EMPTY_OUTBOX, acts, s) && LogsCommit(s, w, done)
    ensures forall id :: LockedBy(s, w, id) <==> DeliveredIn(done, id)
    ensures forall j, k :: 0 <= j < k < |done| ==> done[j].id != done[k].id
  {
    PollsAreWhole(acts, w);
    assert RunPolls(EMPTY_OUTBOX, acts) == s;
    assert DoCommit(s, w).log[|s.log|] == Committed(done);
  }
}
