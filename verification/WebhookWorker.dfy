/** The worker as it runs: row objects updated in place, the batch claimed and delivered one by one. */
module WebhookWorker {
  import opened Options
  import opened WebhookRows
  import opened WebhookPolls
  import opened DeliveryFairness

  class WebhookDelivery {
    const endpoint: nat
    var status: DeliveryStatus
    var attempts: nat
    var nextAttemptAt: Time
    var lastError: Option<string>
    var deliveredAt: Option<Time>

    ghost function View(): Row
      reads this
    {
      Row(endpoint, status, attempts, nextAttemptAt, lastError, deliveredAt)
    }

    /** As enqueue_event adds it. */
    constructor (endpoint: nat, now: Time)
      ensures View() == Row(endpoint, PENDING, 0, now, None, None) && Fresh(View()) && Due(View(), now)
    {
      this.endpoint := endpoint;
      status, attempts, nextAttemptAt, lastError, deliveredAt := PENDING, 0, now, None, None;
    }
  }

  class Worker {
    /** The endpoints that exist, active or not: a delivery is not stopped by deactivation. */
    var endpoints: set<nat>
    var table: map<RowId, WebhookDelivery>

    ghost predicate Valid()
      reads this
    {
      forall a, b :: a in table && b in table && table[a] == table[b] ==> a == b
    }

    ghost function Rows(): map<RowId, Row>
      reads this, table.Values
    {
      map id | id in table :: table[id].View()
    }

    constructor (endpoints: set<nat>, table: map<RowId, WebhookDelivery>)
      requires forall a, b :: a in table && b in table && table[a] == table[b] ==> a == b
      ensures Valid() && this.endpoints == endpoints && this.table == table
    {
      this.endpoints := endpoints;
      this.table := table;
    }

    /** One delivery: the lookup of the endpoint, the POST with its outcome, and what is written to the row. */
    method Deliver(delivery: WebhookDelivery, claimedAt: Time, outcome: Outcome, now: Time)
      returns (ghost result: Result)
      modifies delivery
      ensures result == if delivery.endpoint in endpoints then Posted(claimedAt, now, outcome)
                        else Missing(claimedAt, now)
      ensures delivery.View() == AfterDelivery(old(delivery.View()), result)
      ensures old(delivery.status) == PENDING && old(delivery.attempts) < 5 ==>
                && (delivery.status == DELIVERED <==> Accepted(result))
                && (delivery.status == PENDING <==> Failed(result) && old(delivery.attempts) < 4)
                && (Accepted(result) || delivery.lastError == Some(MessageOf(result)))
    {
      if delivery.endpoint !in endpoints {
        delivery.status := EXHAUSTED;
        delivery.lastError := Some("endpoint not found");
        return Missing(claimedAt, now);
      }
      delivery.attempts := delivery.attempts + 1;
      if Succeeded(outcome) {
        delivery.status := DELIVERED;
        delivery.deliveredAt := Some(now);
      } else {
        delivery.lastError := Some(ErrorMessage(outcome));
        if delivery.attempts >= MAX_ATTEMPTS {
          delivery.status := EXHAUSTED;
        } else {
          delivery.nextAttemptAt := now + Backoff(delivery.attempts) * SECOND;
        }
      }
      return Posted(claimedAt, now, outcome);
    }

    /** The row that comes first in the order of the claiming query. */
    method Earliest(ids: set<RowId>) returns (first: RowId)
      requires ids != {} && ids <= table.Keys
      ensures first in ids && forall id :: id in ids && id != first ==> Precedes(Rows(), first, id)
    {
      first :| first in ids;
      var rest := ids - {first};
      while rest != {}
        invariant rest < ids && first in ids && first !in rest
        invariant forall id :: id in ids && id !in rest && id != first ==> Precedes(Rows(), first, id)
        decreases rest
      {
        var id :| id in rest;
        rest := rest - {id};
        if table[id].nextAttemptAt < table[first].nextAttemptAt ||
           (table[id].nextAttemptAt == table[first].nextAttemptAt && id < first)
        {
          first := id;
        }
      }
    }

    /** SELECT ... WHERE status = 'pending' AND next_attempt_at <= now ORDER BY next_attempt_at LIMIT 10. */
    method ClaimBatch(now: Time) returns (batch: seq<RowId>)
      ensures IsClaim(Rows(), now, batch)
    {
      var due := set id | id in table && table[id].status == PENDING && table[id].nextAttemptAt <= now;
      var rest := due;
      batch := [];
      while rest != {} && |batch| < BATCH_SIZE
        invariant Distinct(batch) && |batch| <= BATCH_SIZE && rest <= due
        invariant forall id :: id in due <==> id in rest || id in batch
        invariant forall id :: id in batch ==> id !in rest
        invariant forall j, k :: 0 <= j < k < |batch| ==> Precedes(Rows(), batch[j], batch[k])
        invariant forall k, id :: 0 <= k < |batch| && id in rest ==> Precedes(Rows(), batch[k], id)
        decreases rest
      {
        var first := Earliest(rest);
        batch := batch + [first];
        rest := rest - {first};
      }
      forall k | 0 <= k < |batch| ensures DueRow(Rows(), now, batch[k]) {
        assert batch[k] in due;
      }
      assert forall id :: DueRow(Rows(), now, id) ==> id in due;
    }

    /** A delivery changes its own row of the table and no other. */
    method DeliverRow(id: RowId, claimedAt: Time, outcome: Outcome, now: Time) returns (ghost work: Work)
      requires Valid() && id in table
      modifies table[id]
      ensures work.id == id && work.result.claimedAt == claimedAt && work.result.now == now
      ensures Rows() == old(Rows())[id := AfterDelivery(old(Rows())[id], work.result)]
    {
      ghost var before := Rows();
      ghost var result := Deliver(table[id], claimedAt, outcome, now);
      work := Work(id, result);
      assert forall other :: other in table && other != id ==> Rows()[other] == before[other];
    }

    method DeliverAll(batch: seq<RowId>, now: Time, outcomes: nat -> Outcome, clock: nat -> Time)
      returns (ghost done: seq<Work>)
      requires Valid() && (forall k :: 0 <= k < |batch| ==> batch[k] in table) && forall k: nat :: now <= clock(k)
      modifies table.Values
      ensures Delivers(done, batch, now)
      ensures Rows() == Serve(old(Rows()), done)
    {
      done := [];
      for k := 0 to |batch|
        invariant Delivers(done, batch[..k], now)
        invariant Rows() == Serve(old(Rows()), done)
      {
        ghost var work := DeliverRow(batch[k], now, outcomes(k), clock(k));
        ServeSnoc(old(Rows()), done, work);
        done := done + [work];
        assert batch[..k + 1] == batch[..k] + [batch[k]];
      }
      assert batch[..|batch|] == batch;
    }

    /** One poll that commits: a batch of the first due rows, each delivered once; nothing else changes. */
    method Poll(now: Time, outcomes: nat -> Outcome, clock: nat -> Time) returns (ghost done: seq<Work>)
      requires Valid() && forall k: nat :: now <= clock(k)
      modifies table.Values
      ensures Valid()
      ensures IsPoll(old(Rows()), now, done)
      ensures Rows() == Serve(old(Rows()), done)
    {
      var batch := ClaimBatch(now);
      ghost var before := Rows();
      done := DeliverAll(batch, now, outcomes, clock);
      ClaimIsPoll(before, now, batch, done);
    }
  }
}
