/** The outbox holds exactly one row per committed domain event and endpoint of its
    business that was active when the event was enqueued. */
module OutboxExactness {
  import opened Options
  import opened PaymentProtocol
  import opened ProtocolInvariant
  import opened ProtocolFrames

  /** The business whose invoice the event is about. */
  ghost function BusinessOf(s: State, e: Event): BusinessId {
    match e
    case InvoiceCreated(i) => if i in s.invoices then s.invoices[i].business else 0
    case InvoicePaid(a) => if IsPay(s, a) then s.procs[a].order.business else 0
    case PaymentFailed(a) => if IsPay(s, a) then s.procs[a].order.business else 0
  }

  lemma BusinessIsTheInvoices(cfg: Config, s: State, e: Event)
    requires Inv(cfg, s) && Happened(TablesOf(s), e)
    ensures var i := if e.InvoiceCreated? then e.invoice else s.attempts[e.attempt].invoice;
            i in s.invoices && BusinessOf(s, e) == s.invoices[i].business
  {
    if !e.InvoiceCreated? { RowFacts(cfg, s, e.attempt); }
  }

  /** The request whose transaction the event belongs to. */
  ghost function RequestOf(e: Event): Pid {
    if e.InvoiceCreated? then e.invoice else e.attempt
  }

  /** One row for each endpoint of b that is active in s, and no other row. */
  ghost predicate OneRowEach(outbox: multiset<Delivery>, s: State, b: BusinessId, e: Event, payload: Payload) {
    forall d: Delivery ::
      outbox[d] == if && d.event == e && d.payload == payload
                      && d.endpoint in s.endpoints && s.endpoints[d.endpoint].business == b
                      && s.endpoints[d.endpoint].isActive
                   then 1 else 0
  }

  lemma FanOutIsOneRowEach(s: State, b: BusinessId, e: Event, payload: Payload)
    ensures OneRowEach(FanOut(s, b, e, payload), s, b, e, payload)
  {
    var rows := set x | x in s.endpoints && s.endpoints[x] == Endpoint(b, true) :: Delivery(e, x, payload);
    forall d: Delivery ensures d in rows <==> && d.event == e && d.payload == payload && d.endpoint in s.endpoints
                                              && s.endpoints[d.endpoint].business == b
                                              && s.endpoints[d.endpoint].isActive {}
  }

  /** The outbox rows that the open transaction of p has added. */
  ghost function Buffered(s: State, p: Pid): Option<multiset<Delivery>> {
    if IsPay(s, p) && s.procs[p].at.Enqueued? then Some(s.procs[p].at.outbox)
    else if IsCreate(s, p) && s.procs[p].cr.CreateEnqueued? then Some(s.procs[p].cr.outbox)
    else None
  }

  /** The statement that enqueues the event. */
  function EnqueueOf(e: Event): Step {
    if e.InvoiceCreated? then EnqueueCreate(e.invoice) else EnqueueOutcome(e.attempt)
  }

  /** Step k is the statement that enqueues the event: before it the request has added no row, after
      it exactly outbox, which has one row for each endpoint of b that is active at that moment. */
  ghost predicate EnqueuedAt(cfg: Config, steps: seq<Step>, k: nat, outbox: multiset<Delivery>, b: BusinessId, e: Event,
                             payload: Payload)
  {
    && k < |steps| && steps[k] == EnqueueOf(e)
    && Buffered(Run(cfg, EMPTY, steps[..k]), RequestOf(e)) == None
    && Buffered(Run(cfg, EMPTY, steps[..k + 1]), RequestOf(e)) == Some(outbox)
    && OneRowEach(outbox, Run(cfg, EMPTY, steps[..k]), b, e, payload)
  }

  ghost predicate WasActive(cfg: Config, steps: seq<Step>, outbox: multiset<Delivery>, b: BusinessId, e: Event,
                            payload: Payload)
  {
    exists k: nat :: EnqueuedAt(cfg, steps, k, outbox, b, e, payload)
  }

  /** The committed rows of event e. */
  ghost function RowsOf(s: State, e: Event): multiset<Delivery> {
    multiset(set d | d in s.deliveries && d.event == e)
  }

  lemma WasActiveExtends(cfg: Config, front: seq<Step>, step: Step, outbox: multiset<Delivery>, b: BusinessId, e: Event,
                         payload: Payload)
    requires WasActive(cfg, front, outbox, b, e, payload)
    ensures WasActive(cfg, front + [step], outbox, b, e, payload)
  {
    var k: nat :| EnqueuedAt(cfg, front, k, outbox, b, e, payload);
    assert (front + [step])[..k] == front[..k] && (front + [step])[..k + 1] == front[..k + 1];
    assert EnqueuedAt(cfg, front + [step], k, outbox, b, e, payload);
  }

  lemma ActiveNow(cfg: Config, front: seq<Step>, e: Event, b: BusinessId, payload: Payload)
    requires var s, s' := Run(cfg, EMPTY, front), Run(cfg, EMPTY, front + [EnqueueOf(e)]);
             Buffered(s, RequestOf(e)) == None && Buffered(s', RequestOf(e)) == Some(FanOut(s, b, e, payload))
    ensures WasActive(cfg, front + [EnqueueOf(e)], FanOut(Run(cfg, EMPTY, front), b, e, payload), b, e, payload)
  {
    var steps := front + [EnqueueOf(e)];
    assert steps[..|front|] == front && steps[..|front| + 1] == steps;
    FanOutIsOneRowEach(Run(cfg, EMPTY, front), b, e, payload);
    assert EnqueuedAt(cfg, steps, |front|, FanOut(Run(cfg, EMPTY, front), b, e, payload), b, e, payload);
  }

  /******* Only the two enqueueing statements add rows *******/

  lemma ReserveAddsNone(cfg: Config, s: State, step: Step)
    requires step.CacheLookup? || step.RefetchWinner? || step.CommitReservation?
    requires IsPay(s, step.p)
    ensures var s' := Apply(cfg, s, step);
            IsPay(s', step.p) && (s'.procs[step.p] == s.procs[step.p] || !s'.procs[step.p].at.Enqueued?)
  {}

  lemma LockAddsNone(s: State, p: Pid)
    requires IsPay(s, p)
    ensures var s' := DoLockInvoice(s, p);
            IsPay(s', p) && (s'.procs[p] == s.procs[p] || !s'.procs[p].at.Enqueued?)
  {}

  lemma InsertAddsNone(s: State, p: Pid, report: Report)
    requires IsPay(s, p)
    ensures var s' := DoInsertAttempt(s, p, report);
            IsPay(s', p) && (s'.procs[p] == s.procs[p] || !s'.procs[p].at.Enqueued?)
  {}

  lemma ChargeAddsNone(cfg: Config, s: State, step: Step)
    requires step.SendCharge? || step.ReplyArrives? || step.ReplyLost?
    requires IsPay(s, step.p)
    ensures var s' := Apply(cfg, s, step);
            IsPay(s', step.p) && (s'.procs[step.p] == s.procs[step.p] || !s'.procs[step.p].at.Enqueued?)
  {}

  lemma OutcomeAddsNone(cfg: Config, s: State, step: Step)
    requires step.FlushOutcome? || step.RelockInvoice? || step.RefreshAttempt?
    requires IsPay(s, step.p)
    ensures var s' := Apply(cfg, s, step);
            IsPay(s', step.p) && (s'.procs[step.p] == s.procs[step.p] || !s'.procs[step.p].at.Enqueued?)
  {}

  lemma CommitAddsNone(cfg: Config, s: State, step: Step)
    requires step.CommitOutcome? || step.Abort?
    requires IsPay(s, step.p)
    ensures var s' := Apply(cfg, s, step);
            IsPay(s', step.p) && (s'.procs[step.p] == s.procs[step.p] || !s'.procs[step.p].at.Enqueued?)
  {}

  /** Of the steps of a call, only its enqueueing statement adds rows. */
  lemma CallAddsNone(cfg: Config, s: State, step: Step)
    requires Actor(step).Some? && IsPay(s, step.p) && !step.EnqueueOutcome?
    ensures var s' := Apply(cfg, s, step);
            IsPay(s', step.p) && (s'.procs[step.p] == s.procs[step.p] || !s'.procs[step.p].at.Enqueued?)
  {
    match step
    case CacheLookup(_) | RefetchWinner(_) | CommitReservation(_) => ReserveAddsNone(cfg, s, step);
    case LockInvoice(p) => LockAddsNone(s, p);
    case InsertAttempt(p, report) => InsertAddsNone(s, p, report);
    case SendCharge(_) | ReplyArrives(_, _) | ReplyLost(_, _) => ChargeAddsNone(cfg, s, step);
    case FlushOutcome(_) | RelockInvoice(_, _) | RefreshAttempt(_) => OutcomeAddsNone(cfg, s, step);
    case CommitOutcome(_) | Abort(_) => CommitAddsNone(cfg, s, step);
    case _ =>
  }

  /** And of the steps of a creation. */
  lemma CreateAddsNone(cfg: Config, s: State, step: Step)
    requires Actor(step).Some? && !IsPay(s, step.p) && !step.EnqueueCreate?
    requires Buffered(Apply(cfg, s, step), step.p).Some?
    ensures step.p in s.procs && Apply(cfg, s, step).procs[step.p] == s.procs[step.p]
  {
    if step.StartPay? || step.StartMove? || step.StartCreate? {
    } else if step.CommitCreate? || step.Abort? {
    } else if step.ReadMove? || step.WriteMove? || step.CommitMove? {
    } else {
      CallStays(cfg, s, step);
    }
  }

  lemma EnqueueAddsOnce(cfg: Config, s: State, step: Step)
    requires step.EnqueueOutcome? || step.EnqueueCreate?
    ensures Apply(cfg, s, step).procs == s.procs || Buffered(s, step.p) == None
    ensures Buffered(s, step.p) == None && IsPay(Apply(cfg, s, step), step.p) &&
            Buffered(Apply(cfg, s, step), step.p).Some? ==>
              step.EnqueueOutcome?
    ensures Buffered(s, step.p) == None && IsCreate(Apply(cfg, s, step), step.p) &&
            Buffered(Apply(cfg, s, step), step.p).Some? ==>
              step.EnqueueCreate?
  {}

  /** A request that has just added rows did so by its enqueueing statement, and had added none before. */
  lemma AddedBy(cfg: Config, s: State, step: Step, p: Pid)
    requires Inv(cfg, s)
    requires var s' := Apply(cfg, s, step);
             p in s'.procs && !(p in s.procs && s.procs[p] == s'.procs[p]) && Buffered(s', p).Some?
    ensures Buffered(s, p) == None
    ensures step == if IsPay(Apply(cfg, s, step), p) then EnqueueOutcome(p) else EnqueueCreate(p)
  {
    assert Actor(step) == Some(p) by { RequestStep(cfg, s, step, p); }
    if step.EnqueueOutcome? || step.EnqueueCreate? {
      EnqueueAddsOnce(cfg, s, step);
    } else if IsPay(s, p) {
      CallAddsNone(cfg, s, step);
    } else {
      CreateAddsNone(cfg, s, step);
    }
  }

  /** What the open transaction of p will enqueue was fanned out to the endpoints active at some earlier moment. */
  ghost predicate BufferDated(cfg: Config, steps: seq<Step>, s: State, p: Pid) {
    p in s.procs ==>
      match s.procs[p]
      case Pay(o, Enqueued(reply, outbox)) =>
        && p in s.attempts && !reply.Lost?
        && WasActive(cfg, steps, outbox, o.business, OutcomeEvent(p, reply),
                     OutcomePayload(o, s.attempts[p].amountCents, reply))
      case Create(b, items, CreateEnqueued(outbox)) =>
        WasActive(cfg, steps, outbox, b, InvoiceCreated(p), CreatedPayload(p, LineTotal(items)))
      case _ => true
  }

  lemma {:induction false} BuffersDated(cfg: Config, steps: seq<Step>, p: Pid)
    ensures BufferDated(cfg, steps, Run(cfg, EMPTY, steps), p)
    decreases |steps|
  {
    if steps != [] {
      var front, step := steps[..|steps| - 1], steps[|steps| - 1];
      assert steps == front + [step];
      var s, s' := Run(cfg, EMPTY, front), Run(cfg, EMPTY, steps);
      BuffersDated(cfg, front, p);
      Reachable(cfg, front);
      RequestStep(cfg, s, step, p);
      StepGrows(cfg, s, step);
      if p in s'.procs {
        var pr := s'.procs[p];
        if p in s.procs && s.procs[p] == pr {
          match pr
          case Pay(o, Enqueued(reply, outbox)) =>
            WasActiveExtends(cfg, front, step, outbox, o.business, OutcomeEvent(p, reply),
                             OutcomePayload(o, s.attempts[p].amountCents, reply));
          case Create(b, items, CreateEnqueued(outbox)) =>
            WasActiveExtends(cfg, front, step, outbox, b, InvoiceCreated(p), CreatedPayload(p, LineTotal(items)));
          case _ =>
        } else if Buffered(s', p).Some? {
          AddedBy(cfg, s, step, p);
          match pr
          case Pay(o, Enqueued(reply, outbox)) =>
            ActiveNow(cfg, front, OutcomeEvent(p, reply), o.business,
                      OutcomePayload(o, s.attempts[p].amountCents, reply));
          case Create(b, items, CreateEnqueued(outbox)) =>
            ActiveNow(cfg, front, InvoiceCreated(p), b, CreatedPayload(p, LineTotal(items)));
        }
      }
    }
  }

  /******* Committing a buffer *******/

  /** The step makes e happen and adds the rows its request had buffered. */
  ghost predicate Commits(s: State, step: Step, e: Event, outbox: multiset<Delivery>) {
    || (step.CommitCreate? && IsCreate(s, step.p) && s.procs[step.p].cr == CreateEnqueued(outbox) &&
        e == InvoiceCreated(step.p))
    || (step.CommitOutcome? && (AtRefused(s, step.p) || AtApproved(s, step.p))
        && outbox == s.procs[step.p].at.outbox && e == OutcomeEvent(step.p, s.procs[step.p].at.reply))
  }

  lemma EventStep(cfg: Config, s: State, step: Step, e: Event)
    requires Inv(cfg, s)
    ensures Happened(TablesOf(s), e) ==>
              && Happened(TablesOf(Apply(cfg, s, step)), e)
              && PayloadOf(TablesOf(Apply(cfg, s, step)), e) == PayloadOf(TablesOf(s), e)
    ensures !Happened(TablesOf(s), e) && Happened(TablesOf(Apply(cfg, s, step)), e) ==>
              exists outbox :: Commits(s, step, e, outbox) && Apply(cfg, s, step).deliveries == s.deliveries + outbox
  {
    StepGrows(cfg, s, step);
    if !Happened(TablesOf(s), e) && Happened(TablesOf(Apply(cfg, s, step)), e) { NewEvent(cfg, s, step, e); }
  }

  lemma NewEvent(cfg: Config, s: State, step: Step, e: Event)
    requires Inv(cfg, s)
    requires !Happened(TablesOf(s), e) && Happened(TablesOf(Apply(cfg, s, step)), e)
    ensures exists outbox :: Commits(s, step, e, outbox) && Apply(cfg, s, step).deliveries == s.deliveries + outbox
  {
    if !WritesTables(step) {
      StepGrows(cfg, s, step);
    } else if step.CommitOutcome? {
      OutcomeMakesEvent(cfg, s, step.p, e);
    } else if step.CommitCreate? {
      assert Commits(s, step, e, s.procs[step.p].cr.outbox);
    }
  }

  lemma OutcomeMakesEvent(cfg: Config, s: State, p: Pid, e: Event)
    requires Inv(cfg, s) && !Happened(TablesOf(s), e) && Happened(TablesOf(DoCommitOutcome(s, p)), e)
    ensures exists outbox ::
              Commits(s, CommitOutcome(p), e, outbox) &&
              DoCommitOutcome(s, p).deliveries == s.deliveries + outbox
  {
    PayFacts(cfg, s, p);
    if AtRefused(s, p) || AtApproved(s, p) {
      assert Commits(s, CommitOutcome(p), e, s.procs[p].at.outbox);
    }
  }

  lemma BufferCommitted(cfg: Config, s: State, step: Step, e: Event, outbox: multiset<Delivery>)
    requires Inv(cfg, s) && Commits(s, step, e, outbox)
    ensures forall d :: d in outbox ==> d.event == e && outbox[d] == 1
    ensures !Happened(TablesOf(s), e)
    ensures step.p in s.procs && BusinessOf(Apply(cfg, s, step), e) ==
              if s.procs[step.p].Pay? then s.procs[step.p].order.business else s.procs[step.p].business
    ensures Happened(TablesOf(Apply(cfg, s, step)), e)
    ensures forall d :: d in outbox ==> d.payload == PayloadOf(TablesOf(Apply(cfg, s, step)), e)
  {
    if step.CommitCreate? {
      CreateFacts(cfg, s, step.p);
    } else {
      PayFacts(cfg, s, step.p);
      RowFacts(cfg, s, step.p);
    }
  }

  /** Outbox rows only come from committing a buffer. */
  lemma DeliveriesStep(cfg: Config, s: State, step: Step)
    requires Inv(cfg, s)
    ensures Apply(cfg, s, step).deliveries == s.deliveries ||
            exists e, outbox :: Commits(s, step, e, outbox) && Apply(cfg, s, step).deliveries == s.deliveries + outbox
  {
    if !WritesTables(step) {
      StepGrows(cfg, s, step);
    } else if step.CommitOutcome? {
      var p := step.p;
      if AtRefused(s, p) || AtApproved(s, p) {
        assert Commits(s, step, OutcomeEvent(p, s.procs[p].at.reply), s.procs[p].at.outbox);
      }
    } else if step.CommitCreate? {
      var p := step.p;
      if IsCreate(s, p) && s.procs[p].cr.CreateEnqueued? {
        assert Commits(s, step, InvoiceCreated(p), s.procs[p].cr.outbox);
      }
    }
  }

  lemma RowsStay(cfg: Config, s: State, step: Step, e: Event)
    requires Inv(cfg, s)
    requires Happened(TablesOf(s), e) || !Happened(TablesOf(Apply(cfg, s, step)), e)
    ensures forall d: Delivery :: d.event == e ==> Apply(cfg, s, step).deliveries[d] == s.deliveries[d]
  {
    DeliveriesStep(cfg, s, step);
    if Apply(cfg, s, step).deliveries != s.deliveries {
      var e', outbox :| Commits(s, step, e', outbox) && Apply(cfg, s, step).deliveries == s.deliveries + outbox;
      BufferCommitted(cfg, s, step, e', outbox);
    }
  }

  lemma NoRowsYet(cfg: Config, s: State, e: Event)
    requires Inv(cfg, s) && !Happened(TablesOf(s), e)
    ensures forall d: Delivery :: d.event == e ==> s.deliveries[d] == 0
  {
    assert Holds(cfg, s, DeliveriesClause);
  }

  lemma RowsCounted(cfg: Config, s: State, e: Event, outbox: multiset<Delivery>)
    requires Inv(cfg, s)
    requires forall d :: d in outbox ==> d.event == e && outbox[d] == 1
    requires forall d: Delivery :: d.event == e ==> s.deliveries[d] == outbox[d]
    ensures RowsOf(s, e) == outbox
  {
    forall d ensures RowsOf(s, e)[d] == outbox[d] {
      if d.event == e { assert s.deliveries[d] == outbox[d]; }
    }
  }

  /** The transaction that makes e happen commits the rows it had buffered, and nothing else is there for e. */
  lemma RowsArrive(cfg: Config, front: seq<Step>, step: Step, e: Event)
    requires var s, s' := Run(cfg, EMPTY, front), Run(cfg, EMPTY, front + [step]);
             s' == Apply(cfg, s, step) && !Happened(TablesOf(s), e) && Happened(TablesOf(s'), e)
    ensures var s' := Run(cfg, EMPTY, front + [step]);
            WasActive(cfg, front + [step], RowsOf(s', e), BusinessOf(s', e), e, PayloadOf(TablesOf(s'), e))
  {
    var s, s' := Run(cfg, EMPTY, front), Run(cfg, EMPTY, front + [step]);
    Reachable(cfg, front);
    Reachable(cfg, front + [step]);
    EventStep(cfg, s, step, e);
    var outbox :| Commits(s, step, e, outbox) && s'.deliveries == s.deliveries + outbox;
    BufferCommitted(cfg, s, step, e, outbox);
    NoRowsYet(cfg, s, e);
    RowsCounted(cfg, s', e, outbox);
    BuffersDated(cfg, front, step.p);
    BufferPayload(cfg, s, step, e, outbox);
    WasActiveExtends(cfg, front, step, outbox, BusinessOf(s', e), e, PayloadOf(TablesOf(s'), e));
  }

  lemma BufferPayload(cfg: Config, s: State, step: Step, e: Event, outbox: multiset<Delivery>)
    requires Inv(cfg, s) && Commits(s, step, e, outbox)
    ensures Happened(TablesOf(Apply(cfg, s, step)), e)
    ensures PayloadOf(TablesOf(Apply(cfg, s, step)), e) ==
            if step.CommitCreate? then CreatedPayload(step.p, LineTotal(s.procs[step.p].items))
            else OutcomePayload(s.procs[step.p].order, s.attempts[step.p].amountCents, s.procs[step.p].at.reply)
  {
    if step.CommitOutcome? {
      PayFacts(cfg, s, step.p);
      RowFacts(cfg, s, step.p);
    }
  }

  /** Outbox exactness, for every schedule and every event: no row before the event is
      committed (so none for pending outcomes or rolled-back transactions), and from
      then on exactly one row, with the payload the tables show, per endpoint of the
      invoice's business that was active when the event's own request enqueued it. */
  lemma {:induction false} OutboxIsExact(cfg: Config, steps: seq<Step>, e: Event)
    ensures var s := Run(cfg, EMPTY, steps);
            && (forall d: Delivery :: d.event == e ==> s.deliveries[d] == RowsOf(s, e)[d])
            && (!Happened(TablesOf(s), e) ==> RowsOf(s, e) == multiset{})
            && (Happened(TablesOf(s), e) ==>
                WasActive(cfg, steps, RowsOf(s, e), BusinessOf(s, e), e, PayloadOf(TablesOf(s), e)))
    decreases |steps|, 1
  {
    var s' := Run(cfg, EMPTY, steps);
    Reachable(cfg, steps);
    assert Holds(cfg, s', DeliveriesClause);
    if !Happened(TablesOf(s'), e) {
      NoRowsYet(cfg, s', e);
      RowsCounted(cfg, s', e, multiset{});
    } else if steps != [] {
      var front, step := steps[..|steps| - 1], steps[|steps| - 1];
      var s := Run(cfg, EMPTY, front);
      assert steps == front + [step];
      if Happened(TablesOf(s), e) {
        OldEventStays(cfg, front, step, e);
      } else {
        RowsArrive(cfg, front, step, e);
      }
    }
  }

  lemma OldEventStays(cfg: Config, front: seq<Step>, step: Step, e: Event)
    requires var s, s' := Run(cfg, EMPTY, front), Run(cfg, EMPTY, front + [step]);
             s' == Apply(cfg, s, step) && Happened(TablesOf(s), e) && Happened(TablesOf(s'), e)
    ensures var s' := Run(cfg, EMPTY, front + [step]);
            WasActive(cfg, front + [step], RowsOf(s', e), BusinessOf(s', e), e, PayloadOf(TablesOf(s'), e))
    decreases |front| + 1, 0
  {
    var s, s' := Run(cfg, EMPTY, front), Run(cfg, EMPTY, front + [step]);
    Reachable(cfg, front);
    OutboxIsExact(cfg, front, e);
    RowsStay(cfg, s, step, e);
    EventStep(cfg, s, step, e);
    BusinessStays(cfg, s, step, e);
    assert RowsOf(s', e) == RowsOf(s, e);
    WasActiveExtends(cfg, front, step, RowsOf(s', e), BusinessOf(s', e), e, PayloadOf(TablesOf(s'), e));
  }

  lemma BusinessStays(cfg: Config, s: State, step: Step, e: Event)
    requires Inv(cfg, s) && Happened(TablesOf(s), e)
    ensures BusinessOf(Apply(cfg, s, step), e) == BusinessOf(s, e)
  {
    if e.InvoiceCreated? {
      StepGrows(cfg, s, step);
    } else {
      RowFacts(cfg, s, e.attempt);
      RequestStep(cfg, s, step, e.attempt);
    }
  }

  /******* Who is active *******/

  lemma EndpointsKept(cfg: Config, s: State, step: Step)
    requires Inv(cfg, s) && !step.CreateEndpoint? && !step.DeactivateEndpoint?
    ensures Apply(cfg, s, step).endpoints == s.endpoints
  {
    if Actor(step).Some? { StepKeeps(cfg, s, step); }
  }

  /** An endpoint stays with its business; only that business deactivates it, and for good. */
  lemma EndpointStep(cfg: Config, s: State, step: Step, e: EndpointId)
    requires Inv(cfg, s) && e in s.endpoints
    ensures e in Apply(cfg, s, step).endpoints && Apply(cfg, s, step).endpoints[e].business == s.endpoints[e].business
    ensures Apply(cfg, s, step).endpoints[e].isActive <==>
              s.endpoints[e].isActive && step != DeactivateEndpoint(e, s.endpoints[e].business)
  {
    if !step.CreateEndpoint? && !step.DeactivateEndpoint? { EndpointsKept(cfg, s, step); }
  }

  /** After a run an endpoint is active exactly if it was before and its business did not deactivate it. */
  lemma {:induction false} ActiveUntilDeactivated(cfg: Config, s: State, steps: seq<Step>, e: EndpointId)
    requires Inv(cfg, s) && e in s.endpoints
    ensures e in Run(cfg, s, steps).endpoints && Run(cfg, s, steps).endpoints[e].business == s.endpoints[e].business
    ensures Run(cfg, s, steps).endpoints[e].isActive <==>
              s.endpoints[e].isActive && DeactivateEndpoint(e, s.endpoints[e].business) !in steps
    decreases |steps|
  {
    if steps != [] {
      var front, last := steps[..|steps| - 1], steps[|steps| - 1];
      assert steps == front + [last];
      ActiveUntilDeactivated(cfg, s, front, e);
      RunKeeps(cfg, s, front);
      EndpointStep(cfg, Run(cfg, s, front), last, e);
    }
  }

  /** Step k registers endpoint e for b, and nobody has before. */
  ghost predicate RegisteredAt(cfg: Config, steps: seq<Step>, k: nat, e: EndpointId, b: BusinessId) {
    k < |steps| && steps[k] == CreateEndpoint(e, b) && e !in Run(cfg, EMPTY, steps[..k]).endpoints
  }

  /** The whole life of an endpoint: it belongs to the business that registered it, and is
      active from then on exactly until that business deactivates it. */
  lemma {:induction false} EndpointLife(cfg: Config, steps: seq<Step>, e: EndpointId)
    requires e in Run(cfg, EMPTY, steps).endpoints
    ensures exists k: nat ::
              var endpoint := Run(cfg, EMPTY, steps).endpoints[e];
              && RegisteredAt(cfg, steps, k, e, endpoint.business)
              && (endpoint.isActive <==> DeactivateEndpoint(e, endpoint.business) !in steps[k + 1..])
    decreases |steps|
  {
    var front, step := steps[..|steps| - 1], steps[|steps| - 1];
    assert steps == front + [step];
    Reachable(cfg, front);
    if e in Run(cfg, EMPTY, front).endpoints {
      EndpointLife(cfg, front, e);
      EndpointStep(cfg, Run(cfg, EMPTY, front), step, e);
      var b := Run(cfg, EMPTY, front).endpoints[e].business;
      var k: nat :| RegisteredAt(cfg, front, k, e, b) &&
                    (Run(cfg, EMPTY, front).endpoints[e].isActive <==> DeactivateEndpoint(e, b) !in front[k + 1..]);
      assert steps[..k] == front[..k] && steps[k + 1..] == front[k + 1..] + [step];
      assert RegisteredAt(cfg, steps, k, e, b);
    } else {
      NewEndpoint(cfg, Run(cfg, EMPTY, front), step, e);
      assert steps[|front| + 1..] == [] && steps[..|front|] == front;
      assert RegisteredAt(cfg, steps, |front|, e, Run(cfg, EMPTY, steps).endpoints[e].business);
    }
  }

  lemma NewEndpoint(cfg: Config, s: State, step: Step, e: EndpointId)
    requires Inv(cfg, s) && e !in s.endpoints && e in Apply(cfg, s, step).endpoints
    ensures step == CreateEndpoint(e, Apply(cfg, s, step).endpoints[e].business)
    ensures Apply(cfg, s, step).endpoints[e].isActive
  {
    if !step.CreateEndpoint? && !step.DeactivateEndpoint? { EndpointsKept(cfg, s, step); }
  }
}
