/** What every reachable state of the payment protocol satisfies, and the proof
    that each step keeps it. */
module ProtocolInvariant {
  import opened InvoiceStates
  import opened Options
  import opened FailureCodes
  import opened PaymentProtocol

  /** The part of the state that the facts about a single request depend on. */
  datatype Tables = Tables(invoices: map<Pid, Invoice>, attempts: map<Pid, Attempt>, psp: map<Pid, Charge>)

  ghost function TablesOf(s: State): Tables {
    Tables(s.invoices, s.attempts, s.psp)
  }

  /******* Row locks *******/

  ghost predicate LockHeld(s: State, i: Pid)
    requires i in s.locks
  {
    s.locks[i] in s.procs && Guarded(s.procs[s.locks[i]]) && InvoiceOf(s.procs[s.locks[i]]) == i
  }

  ghost predicate HoldsLock(s: State, p: Pid)
    requires p in s.procs && Guarded(s.procs[p])
  {
    InvoiceOf(s.procs[p]) in s.locks && s.locks[InvoiceOf(s.procs[p])] == p
  }

  /** Row locks and program counters agree, so at most one request is between locking and committing. */
  ghost predicate LocksOk(s: State) {
    && (forall i :: i in s.locks ==> LockHeld(s, i))
    && (forall p :: p in s.procs && Guarded(s.procs[p]) ==> HoldsLock(s, p))
  }

  /******* One request *******/

  /** The committed invoice is still what the lock holder read. */
  ghost predicate OpenFor(t: Tables, o: Order, totalCents: int) {
    && o.invoice in t.invoices
    && t.invoices[o.invoice].business == o.business
    && t.invoices[o.invoice].state == OPEN
    && t.invoices[o.invoice].totalCents == totalCents
  }

  ghost predicate OwnPending(t: Tables, p: Pid) {
    p in t.attempts && t.attempts[p].status == PENDING
  }

  ghost predicate Unused(t: Tables, p: Pid) {
    p !in t.attempts && p !in t.psp
  }

  ghost predicate ReplyTrue(t: Tables, p: Pid, reply: Reply) {
    p in t.psp &&
    match reply
    case Approved(_) => t.psp[p].stage == Charged
    case Refused(code) => t.psp[p].stage == Declined(code)
    case Lost(_) => true
  }

  /** No unique index stands in the way of this order's row. */
  ghost predicate NoRival(t: Tables, o: Order) {
    forall a :: a in t.attempts && t.attempts[a].invoice == o.invoice ==>
      t.attempts[a].status != PENDING && t.attempts[a].key != o.key
  }

  /** Buffered outbox rows: one event, one payload, each endpoint at most once. */
  ghost predicate BufferOk(outbox: multiset<Delivery>, event: Event, payload: Payload) {
    forall d :: d in outbox ==> outbox[d] == 1 && d.event == event && d.payload == payload
  }

  /** With a fresh re-read, the invoice is still OPEN between the second lock and the second commit. */
  ghost predicate StillOpen(cfg: Config, t: Tables, o: Order) {
    cfg.freshReread ==> o.invoice in t.invoices && t.invoices[o.invoice].state == OPEN
  }

  ghost predicate RowOf(attempts: map<Pid, Attempt>, a: Pid, o: Order) {
    a in attempts && attempts[a].invoice == o.invoice && attempts[a].key == o.key
  }

  ghost predicate KeyUsed(t: Tables, o: Order) {
    exists a :: RowOf(t.attempts, a, o)
  }

  /** The key's row was made by a request with another body. */
  ghost predicate OtherBody(cfg: Config, t: Tables, o: Order) {
    exists a :: RowOf(t.attempts, a, o) && t.attempts[a].requestHash != cfg.hash(o.cardToken)
  }

  /** The CHECK on the amount refuses every attempt. */
  ghost predicate NothingDue(t: Tables, i: Pid) {
    i in t.invoices && t.invoices[i].totalCents <= 0
  }

  ghost predicate PayOk(cfg: Config, t: Tables, p: Pid, o: Order, pc: PayPc) {
    match pc
    case Started | CacheMissed => Unused(t, p)
    case Conflicted => Unused(t, p) && (KeyUsed(t, o) || NothingDue(t, o.invoice))
    case LockedOpen(total) => Unused(t, p) && OpenFor(t, o, total)
    case Inserted(amount) => Unused(t, p) && OpenFor(t, o, amount) && amount > 0 && NoRival(t, o)
    case Reserved => OwnPending(t, p) && p !in t.psp
    case Sent => OwnPending(t, p) && p in t.psp
    case Replied(reply) => OwnPending(t, p) && ReplyTrue(t, p, reply)
    case Flushed(reply) => OwnPending(t, p) && ReplyTrue(t, p, reply) && !reply.Lost?
    case Relocked(reply) => OwnPending(t, p) && ReplyTrue(t, p, reply) && reply.Approved? && StillOpen(cfg, t, o)
    case Enqueued(reply, outbox) =>
      && OwnPending(t, p) && ReplyTrue(t, p, reply) && !reply.Lost?
      && (reply.Approved? ==> StillOpen(cfg, t, o))
      && BufferOk(outbox, OutcomeEvent(p, reply), OutcomePayload(o, t.attempts[p].amountCents, reply))
    case Refreshing => p in t.attempts
    case PayDone(result) => ReturnOk(cfg, t, p, o, result)
  }

  /** A returned attempt is the row of the caller's invoice and key, and was made by the same request body. */
  ghost predicate ReturnOk(cfg: Config, t: Tables, p: Pid, o: Order, result: PayResult) {
    match result
    case Returned(a, status, isCached) =>
      && a in t.attempts
      && t.attempts[a].invoice == o.invoice && t.attempts[a].key == o.key
      && t.attempts[a].requestHash == cfg.hash(o.cardToken)
      && (isCached <==> a != p)
      && (status != PENDING ==> t.attempts[a].status == status)
    case IdempotencyConflict => OtherBody(cfg, t, o) || NothingDue(t, o.invoice)
    case _ => true
  }

  /** A transition that goes on after its read is of an invoice of its own business. */
  ghost predicate OwnedBy(t: Tables, invoice: Pid, business: BusinessId) {
    invoice in t.invoices && t.invoices[invoice].business == business
  }

  ghost predicate MoveOk(cfg: Config, t: Tables, business: BusinessId, target: InvoiceState, invoice: Pid, mv: MovePc) {
    && target in {OPEN, VOID, UNCOLLECTIBLE}
    && match mv
       case MoveRead(seen) => OwnedBy(t, invoice, business) && Allowed(seen, target)
       case MoveWritten(seen) =>
         && OwnedBy(t, invoice, business) && Allowed(seen, target)
         && (Atomic(cfg, target) ==> t.invoices[invoice].state == seen)
       case _ => true
  }

  ghost predicate CreateOk(t: Tables, p: Pid, items: seq<LineItem>, cr: CreatePc) {
    match cr
    case Building => p !in t.invoices
    case CreateEnqueued(outbox) =>
      p !in t.invoices && Storable(items) && BufferOk(outbox, InvoiceCreated(p), CreatedPayload(p, LineTotal(items)))
    case CreateDone(_) => true
  }

  ghost predicate ProcOk(cfg: Config, t: Tables, p: Pid, pr: Proc) {
    match pr
    case Pay(o, pc) => PayOk(cfg, t, p, o, pc)
    case Move(business, invoice, target, mv) => MoveOk(cfg, t, business, target, invoice, mv)
    case Create(_, items, cr) => CreateOk(t, p, items, cr)
  }

  ghost predicate ProcsOk(cfg: Config, s: State) {
    forall p :: p in s.procs ==> ProcOk(cfg, TablesOf(s), p, s.procs[p])
  }

  /******* Tables *******/

  /** The row agrees with the request that inserted it and with the invoice it pays. */
  ghost predicate AttemptRow(cfg: Config, row: Attempt, a: Pid, pr: Proc, invoices: map<Pid, Invoice>) {
    && pr.Pay?
    && row.invoice == pr.order.invoice && row.key == pr.order.key && row.cardToken == pr.order.cardToken
    && row.requestHash == cfg.hash(row.cardToken)
    && row.invoice in invoices
    && invoices[row.invoice].business == pr.order.business
    && row.amountCents == invoices[row.invoice].totalCents
    && row.amountCents > 0
    && invoices[row.invoice].state != DRAFT
    && (row.status != PENDING ==>
        pr.at.Refreshing? || pr.at == PayDone(Died) || pr.at == PayDone(Returned(a, row.status, false)))
    && (row.status == SUCCEEDED <==> row.pspRef.Some?)
    && (row.status == FAILED ==> row.failureCode.Some?)
    && (row.status == SUCCEEDED || !Ended(pr.at) ==> row.failureCode.None?)
    && (pr.at == PayDone(Returned(a, PENDING, false)) || (pr.at.Refreshing? && row.status == PENDING) ==>
          row.failureCode == Some(FailureCode(PSPTimeout)) || row.failureCode == Some(FailureCode(PSPNetworkError)))
  }

  /** A success was charged, and a failure was declined for good. */
  ghost predicate AttemptOutcome(row: Attempt, a: Pid, t: Tables) {
    && (row.status == SUCCEEDED ==> a in t.psp && t.psp[a].stage == Charged)
    && (row.status == FAILED ==> a in t.psp && t.psp[a].stage.Declined? && row.failureCode == Some(t.psp[a].stage.code))
  }

  ghost predicate AttemptsOk(cfg: Config, s: State) {
    forall a :: a in s.attempts ==>
      && a in s.procs
      && AttemptRow(cfg, s.attempts[a], a, s.procs[a], s.invoices)
      && AttemptOutcome(s.attempts[a], a, TablesOf(s))
  }

  /** Per invoice: keys are unique and at most one attempt is pending. */
  ghost predicate AttemptsExclude(attempts: map<Pid, Attempt>) {
    forall a, b :: a in attempts && b in attempts && a != b && attempts[a].invoice == attempts[b].invoice ==>
      && attempts[a].key != attempts[b].key
      && (attempts[a].status != PENDING || attempts[b].status != PENDING)
  }

  /** An invoice with a pending attempt is not paid. */
  ghost predicate PendingUnpaid(t: Tables) {
    forall a :: a in t.attempts && t.attempts[a].status == PENDING && t.attempts[a].invoice in t.invoices ==>
      t.invoices[t.attempts[a].invoice].state != PAID
  }

  ghost predicate PspOk(t: Tables) {
    forall c :: c in t.psp ==> c in t.attempts && t.psp[c].amountCents == t.attempts[c].amountCents
  }

  ghost predicate PaidBy(attempts: map<Pid, Attempt>, i: Pid, a: Pid) {
    a in attempts && attempts[a].invoice == i && attempts[a].status == SUCCEEDED
  }

  ghost predicate InvoiceRow(inv: Invoice) {
    Storable(inv.items) && inv.totalCents == LineTotal(inv.items)
  }

  ghost predicate InvoicesOk(s: State) {
    forall i :: i in s.invoices ==>
      && i in s.procs && s.procs[i].Create? && s.procs[i].cr.CreateDone?
      && InvoiceRow(s.invoices[i])
      && (s.invoices[i].state == PAID ==> exists a :: PaidBy(s.attempts, i, a))
  }

  /** The domain tables show that the event has happened. */
  ghost predicate Happened(t: Tables, e: Event) {
    match e
    case InvoiceCreated(i) => i in t.invoices
    case InvoicePaid(a) => a in t.attempts && t.attempts[a].status == SUCCEEDED && t.attempts[a].pspRef.Some?
    case PaymentFailed(a) => a in t.attempts && t.attempts[a].status == FAILED && t.attempts[a].failureCode.Some?
  }

  ghost function PayloadOf(t: Tables, e: Event): Payload
    requires Happened(t, e)
  {
    match e
    case InvoiceCreated(i) => CreatedPayload(i, t.invoices[i].totalCents)
    case InvoicePaid(a) => PaidPayload(t.attempts[a].invoice, t.attempts[a].amountCents, t.attempts[a].pspRef.value)
    case PaymentFailed(a) =>
      FailedPayload(t.attempts[a].invoice, t.attempts[a].failureCode.value, t.attempts[a].amountCents)
  }

  ghost predicate DeliveryRow(t: Tables, d: Delivery) {
    Happened(t, d.event) && d.payload == PayloadOf(t, d.event)
  }

  ghost predicate DeliveriesOk(s: State) {
    forall d :: d in s.deliveries ==> s.deliveries[d] == 1 && DeliveryRow(TablesOf(s), d)
  }

  datatype Clause =
    | LocksClause | ProcsClause | AttemptsClause | ExclusionClause
    | UnpaidClause | PspClause | InvoicesClause | DeliveriesClause

  ghost predicate Holds(cfg: Config, s: State, clause: Clause) {
    match clause
    case LocksClause => LocksOk(s)
    case ProcsClause => ProcsOk(cfg, s)
    case AttemptsClause => AttemptsOk(cfg, s)
    case ExclusionClause => AttemptsExclude(s.attempts)
    case UnpaidClause => PendingUnpaid(TablesOf(s))
    case PspClause => PspOk(TablesOf(s))
    case InvoicesClause => InvoicesOk(s)
    case DeliveriesClause => DeliveriesOk(s)
  }

  /** The invariant is the conjunction of its clauses; a proof names the clauses it uses. */
  ghost predicate Inv(cfg: Config, s: State) {
    forall clause: Clause :: Holds(cfg, s, clause)
  }

  ghost predicate AllClauses(cfg: Config, s: State) {
    && LocksOk(s)
    && ProcsOk(cfg, s)
    && AttemptsOk(cfg, s)
    && AttemptsExclude(s.attempts)
    && PendingUnpaid(TablesOf(s))
    && PspOk(TablesOf(s))
    && InvoicesOk(s)
    && DeliveriesOk(s)
  }

  lemma InvMeans(cfg: Config, s: State)
    ensures Inv(cfg, s) <==> AllClauses(cfg, s)
  {
    if Inv(cfg, s) { InvImplies(cfg, s); }
  }

  lemma InvImplies(cfg: Config, s: State)
    requires Inv(cfg, s)
    ensures AllClauses(cfg, s)
  {
    assert Holds(cfg, s, LocksClause) && Holds(cfg, s, ProcsClause) && Holds(cfg, s, AttemptsClause);
    assert Holds(cfg, s, ExclusionClause) && Holds(cfg, s, UnpaidClause) && Holds(cfg, s, PspClause);
    assert Holds(cfg, s, InvoicesClause) && Holds(cfg, s, DeliveriesClause);
  }

  /******* Steps that move one program counter *******/

  ghost predicate SameRequest(pr: Proc, pr': Proc) {
    match pr
    case Pay(o, _) => pr'.Pay? && pr'.order == o
    case Move(b, i, t, _) => pr'.Move? && pr'.business == b && pr'.invoice == i && pr'.target == t
    case Create(b, items, _) => pr'.Create? && pr'.business == b && pr'.items == items
  }

  /** A call that returns an attempt reports the status its row holds at that moment. */
  ghost predicate Reports(attempts: map<Pid, Attempt>, pr: Proc) {
    pr.Pay? && pr.at.PayDone? && pr.at.result.Returned? ==>
      pr.at.result.attempt in attempts && attempts[pr.at.result.attempt].status == pr.at.result.status
  }

  /** Outbox rows are buffered for the endpoints that are active at that moment. */
  ghost predicate Buffers(s: State, p: Pid, pr: Proc) {
    match pr
    case Pay(o, Enqueued(reply, outbox)) =>
      && p in s.attempts && !reply.Lost?
      && outbox == FanOut(s, o.business, OutcomeEvent(p, reply), OutcomePayload(o, s.attempts[p].amountCents, reply))
    case Create(b, items, CreateEnqueued(outbox)) =>
      outbox == FanOut(s, b, InvoiceCreated(p), CreatedPayload(p, LineTotal(items)))
    case _ => true
  }

  /** Only p moved; it keeps its request, and a finished request stays as it is. */
  ghost predicate Moved(s: State, p: Pid, s': State) {
    && s'.endpoints == s.endpoints
    && (forall q :: q in s.procs ==>
          && q in s'.procs
          && SameRequest(s.procs[q], s'.procs[q])
          && (q != p || Finished(s.procs[q]) ==> s'.procs[q] == s.procs[q]))
    && (forall q :: q in s'.procs ==> q in s.procs || q == p)
    && (IsPay(s, p) && Ended(s.procs[p].at) ==> IsPay(s', p) && Ended(s'.procs[p].at))
    && (p in s'.procs && !(p in s.procs && s'.procs[p] == s.procs[p]) ==>
          Reports(s'.attempts, s'.procs[p]) && Buffers(s, p, s'.procs[p]))
  }

  /** Nothing was written that another session can see. */
  ghost predicate Quiet(s: State, s': State) {
    TablesOf(s') == TablesOf(s) && s'.deliveries == s.deliveries
  }

  ghost predicate WasGuarded(s: State, p: Pid) {
    p in s.procs && Guarded(s.procs[p])
  }

  /** The lock is kept, taken or given back along with the program counter. */
  ghost predicate LockDiscipline(s: State, p: Pid, pr': Proc, locks': map<Pid, Pid>) {
    if !WasGuarded(s, p) && Guarded(pr') then InvoiceOf(pr') !in s.locks && locks' == s.locks[InvoiceOf(pr') := p]
    else if WasGuarded(s, p) && !Guarded(pr') then locks' == s.locks - {InvoiceOf(s.procs[p])}
    else locks' == s.locks
  }

  lemma LocksKept(s: State, p: Pid, s': State)
    requires LocksOk(s)
    requires p in s'.procs && s'.procs == s.procs[p := s'.procs[p]] && LockDiscipline(s, p, s'.procs[p], s'.locks)
    requires p in s.procs ==> SameRequest(s.procs[p], s'.procs[p])
    ensures LocksOk(s')
  {
    forall i | i in s'.locks ensures LockHeld(s', i) {
      if i in s.locks { assert LockHeld(s, i); }
    }
    forall q | q in s'.procs && Guarded(s'.procs[q]) ensures HoldsLock(s', q) {
      if q in s.procs && Guarded(s.procs[q]) { assert HoldsLock(s, q); }
    }
  }

  ghost function Local(s: State, p: Pid, pr': Proc, locks': map<Pid, Pid>): State {
    s.(procs := s.procs[p := pr'], locks := locks')
  }

  /** A call that has committed its outcome returns its row or dies; no other call answers as if it had. */
  ghost predicate Closes(s: State, p: Pid, pc': PayPc) {
    if IsPay(s, p) && s.procs[p].at.Refreshing? then
      pc' == PayDone(Died) || (p in s.attempts && pc' == PayDone(Returned(p, s.attempts[p].status, false)))
    else
      !pc'.Refreshing? && pc' != PayDone(Returned(p, PENDING, false))
  }

  ghost predicate LocalOk(cfg: Config, s: State, p: Pid, pr': Proc, locks': map<Pid, Pid>) {
    && LockDiscipline(s, p, pr', locks')
    && (p in s.procs ==> !Finished(s.procs[p]) && SameRequest(s.procs[p], pr'))
    && ProcOk(cfg, TablesOf(s), p, pr')
    && Reports(s.attempts, pr') && Buffers(s, p, pr')
    && (pr'.Pay? ==> Closes(s, p, pr'.at))
  }

  lemma LocalAttempts(cfg: Config, s: State, p: Pid, pr': Proc, locks': map<Pid, Pid>)
    requires AttemptsOk(cfg, s) && LocalOk(cfg, s, p, pr', locks')
    ensures AttemptsOk(cfg, Local(s, p, pr', locks'))
  {}

  lemma LocalClauses(cfg: Config, s: State, p: Pid, pr': Proc, locks': map<Pid, Pid>)
    requires AllClauses(cfg, s) && LocalOk(cfg, s, p, pr', locks')
    ensures AllClauses(cfg, Local(s, p, pr', locks'))
  {
    LocksKept(s, p, Local(s, p, pr', locks'));
    LocalAttempts(cfg, s, p, pr', locks');
  }

  lemma LocalStep(cfg: Config, s: State, p: Pid, pr': Proc, locks': map<Pid, Pid>)
    requires Inv(cfg, s) && LocalOk(cfg, s, p, pr', locks')
    ensures Inv(cfg, Local(s, p, pr', locks'))
    ensures Moved(s, p, Local(s, p, pr', locks')) && Quiet(s, Local(s, p, pr', locks'))
  {
    InvMeans(cfg, s);
    LocalClauses(cfg, s, p, pr', locks');
    InvMeans(cfg, Local(s, p, pr', locks'));
  }

  lemma RowFacts(cfg: Config, s: State, a: Pid)
    requires Inv(cfg, s) && a in s.attempts
    ensures IsPay(s, a)
    ensures AttemptRow(cfg, s.attempts[a], a, s.procs[a], s.invoices)
    ensures AttemptOutcome(s.attempts[a], a, TablesOf(s))
  {
    assert Holds(cfg, s, AttemptsClause);
  }

  lemma ChargeFacts(cfg: Config, s: State, c: Pid)
    requires Inv(cfg, s) && c in s.psp
    ensures c in s.attempts && IsPay(s, c) && s.psp[c].amountCents == s.attempts[c].amountCents
  {
    assert Holds(cfg, s, PspClause);
    RowFacts(cfg, s, c);
  }

  lemma FreshFacts(cfg: Config, s: State, p: Pid)
    requires Inv(cfg, s) && p !in s.procs
    ensures Unused(TablesOf(s), p) && p !in s.invoices
  {
    assert Holds(cfg, s, AttemptsClause) && Holds(cfg, s, PspClause) && Holds(cfg, s, InvoicesClause);
  }

  /** process_payment advances to pc' and nothing else changes but its lock. */
  lemma PayStep(cfg: Config, s: State, p: Pid, pc': PayPc, locks': map<Pid, Pid>)
    requires Inv(cfg, s) && IsPay(s, p) && !s.procs[p].at.PayDone?
    requires PayOk(cfg, TablesOf(s), p, s.procs[p].order, pc') && Reports(s.attempts, s.procs[p].(at := pc'))
    requires Closes(s, p, pc')
    requires Buffers(s, p, s.procs[p].(at := pc'))
    requires LockDiscipline(s, p, s.procs[p].(at := pc'), locks')
    ensures Inv(cfg, SetPay(s, p, pc').(locks := locks'))
    ensures Moved(s, p, SetPay(s, p, pc').(locks := locks')) && Quiet(s, SetPay(s, p, pc').(locks := locks'))
  {
    LocalStep(cfg, s, p, s.procs[p].(at := pc'), locks');
  }

  lemma PayFacts(cfg: Config, s: State, p: Pid)
    requires Inv(cfg, s) && IsPay(s, p)
    ensures PayOk(cfg, TablesOf(s), p, s.procs[p].order, s.procs[p].at)
  {
    assert Holds(cfg, s, ProcsClause);
    assert ProcOk(cfg, TablesOf(s), p, s.procs[p]);
  }

  lemma StartPayKeeps(cfg: Config, s: State, p: Pid, order: Order)
    requires Inv(cfg, s)
    ensures Inv(cfg, DoStartPay(s, p, order))
    ensures Moved(s, p, DoStartPay(s, p, order)) && Quiet(s, DoStartPay(s, p, order))
  {
    if p !in s.procs {
      FreshFacts(cfg, s, p);
      LocalStep(cfg, s, p, Pay(order, Started), s.locks);
    }
  }

  lemma CacheLookupKeeps(cfg: Config, s: State, p: Pid)
    requires Inv(cfg, s)
    ensures Inv(cfg, DoCacheLookup(cfg, s, p))
    ensures Moved(s, p, DoCacheLookup(cfg, s, p)) && Quiet(s, DoCacheLookup(cfg, s, p))
  {
    if IsPay(s, p) && s.procs[p].at.Started? {
      PayFacts(cfg, s, p);
      var o := s.procs[p].order;
      match FindAttempt(s, o) {
        case None => PayStep(cfg, s, p, CacheMissed, s.locks);
        case Some(a) =>
          if s.attempts[a].requestHash != cfg.hash(o.cardToken) {
            assert RowOf(TablesOf(s).attempts, a, o);
            PayStep(cfg, s, p, PayDone(IdempotencyConflict), s.locks);
          } else {
            PayStep(cfg, s, p, PayDone(Returned(a, s.attempts[a].status, true)), s.locks);
          }
      }
    }
  }

  lemma LockInvoiceKeeps(cfg: Config, s: State, p: Pid)
    requires Inv(cfg, s)
    ensures Inv(cfg, DoLockInvoice(s, p))
    ensures Moved(s, p, DoLockInvoice(s, p)) && Quiet(s, DoLockInvoice(s, p))
  {
    if IsPay(s, p) && s.procs[p].at.CacheMissed? {
      PayFacts(cfg, s, p);
      var o := s.procs[p].order;
      if o.invoice !in s.invoices || s.invoices[o.invoice].business != o.business {
        PayStep(cfg, s, p, PayDone(NotFoundError), s.locks);
      } else if o.invoice !in s.locks {
        if !Allowed(s.invoices[o.invoice].state, PAID) {
          PayStep(cfg, s, p, PayDone(InvalidStateTransition), s.locks);
        } else {
          PayStep(cfg, s, p, LockedOpen(s.invoices[o.invoice].totalCents), s.locks[o.invoice := p]);
        }
      }
    }
  }

  lemma InsertAttemptKeeps(cfg: Config, s: State, p: Pid, report: Report)
    requires Inv(cfg, s)
    ensures Inv(cfg, DoInsertAttempt(s, p, report))
    ensures Moved(s, p, DoInsertAttempt(s, p, report)) && Quiet(s, DoInsertAttempt(s, p, report))
  {
    if IsPay(s, p) && s.procs[p].at.LockedOpen? {
      PayFacts(cfg, s, p);
      var o := s.procs[p].order;
      var freed := s.locks - {o.invoice};
      if s.procs[p].at.totalCents <= 0 {
        PayStep(cfg, s, p, Conflicted, freed);
      } else if Contended(s, o.invoice) {
      } else if !PendingOn(s, o.invoice) && !KeyTaken(s, o) {
        NoRivalFound(s, o);
        PayStep(cfg, s, p, Inserted(s.procs[p].at.totalCents), s.locks);
      } else if report.PendingIndex? && PendingOn(s, o.invoice) {
        PayStep(cfg, s, p, PayDone(InvalidStateTransition), freed);
      } else if report.IdempotencyIndex? && KeyTaken(s, o) {
        KeyFound(s, o);
        PayStep(cfg, s, p, Conflicted, freed);
      }
    }
  }

  lemma NoRivalFound(s: State, o: Order)
    requires !PendingOn(s, o.invoice) && !KeyTaken(s, o)
    ensures NoRival(TablesOf(s), o)
  {
    forall a | a in s.attempts && s.attempts[a].invoice == o.invoice
      ensures s.attempts[a].status != PENDING && s.attempts[a].key != o.key
    {
      assert !Matches(s, a, o);
    }
  }

  lemma KeyFound(s: State, o: Order)
    ensures KeyTaken(s, o) <==> KeyUsed(TablesOf(s), o)
  {
    forall a ensures Matches(s, a, o) <==> RowOf(TablesOf(s).attempts, a, o) {}
  }

  lemma RefetchWinnerKeeps(cfg: Config, s: State, p: Pid)
    requires Inv(cfg, s)
    ensures Inv(cfg, DoRefetchWinner(cfg, s, p))
    ensures Moved(s, p, DoRefetchWinner(cfg, s, p)) && Quiet(s, DoRefetchWinner(cfg, s, p))
  {
    if IsPay(s, p) && s.procs[p].at.Conflicted? {
      PayFacts(cfg, s, p);
      var o := s.procs[p].order;
      var row := FindAttempt(s, o);
      KeyFound(s, o);
      if row.Some? && s.attempts[row.value].requestHash == cfg.hash(o.cardToken) {
        PayStep(cfg, s, p, PayDone(Returned(row.value, s.attempts[row.value].status, true)), s.locks);
      } else {
        if row.Some? { assert RowOf(TablesOf(s).attempts, row.value, o); }
        PayStep(cfg, s, p, PayDone(IdempotencyConflict), s.locks);
      }
    }
  }

  lemma ReplyArrivesKeeps(cfg: Config, s: State, p: Pid, pspRef: string)
    requires Inv(cfg, s)
    ensures Inv(cfg, DoReplyArrives(s, p, pspRef))
    ensures Moved(s, p, DoReplyArrives(s, p, pspRef)) && Quiet(s, DoReplyArrives(s, p, pspRef))
  {
    if IsPay(s, p) && s.procs[p].at.Sent? && p in s.psp {
      PayFacts(cfg, s, p);
      match s.psp[p].stage {
        case Undecided =>
        case Charged => PayStep(cfg, s, p, Replied(Approved(pspRef)), s.locks);
        case Declined(code) => PayStep(cfg, s, p, Replied(Refused(code)), s.locks);
      }
    }
  }

  lemma ReplyLostKeeps(cfg: Config, s: State, p: Pid, error: PspError)
    requires Inv(cfg, s)
    ensures Inv(cfg, DoReplyLost(s, p, error))
    ensures Moved(s, p, DoReplyLost(s, p, error)) && Quiet(s, DoReplyLost(s, p, error))
  {
    if IsPay(s, p) && s.procs[p].at.Sent? {
      PayFacts(cfg, s, p);
      PayStep(cfg, s, p, Replied(Lost(error)), s.locks);
    }
  }

  lemma FlushOutcomeKeeps(cfg: Config, s: State, p: Pid)
    requires Inv(cfg, s)
    ensures Inv(cfg, DoFlushOutcome(s, p))
    ensures Moved(s, p, DoFlushOutcome(s, p)) && Quiet(s, DoFlushOutcome(s, p))
  {
    if IsPay(s, p) && s.procs[p].at.Replied? && !s.procs[p].at.reply.Lost? {
      PayFacts(cfg, s, p);
      PayStep(cfg, s, p, Flushed(s.procs[p].at.reply), s.locks);
    }
  }

  lemma RelockInvoiceKeeps(cfg: Config, s: State, p: Pid, stale: bool)
    requires Inv(cfg, s)
    ensures Inv(cfg, DoRelockInvoice(cfg, s, p, stale))
    ensures Moved(s, p, DoRelockInvoice(cfg, s, p, stale)) && Quiet(s, DoRelockInvoice(cfg, s, p, stale))
  {
    if IsPay(s, p) && s.procs[p].at.Flushed? && s.procs[p].at.reply.Approved? {
      PayFacts(cfg, s, p);
      var i := s.procs[p].order.invoice;
      if i in s.invoices && i !in s.locks && !(stale && cfg.freshReread) {
        if !Allowed(if stale then OPEN else s.invoices[i].state, PAID) {
          PayStep(cfg, s, p, PayDone(InvalidStateTransition), s.locks);
        } else {
          PayStep(cfg, s, p, Relocked(s.procs[p].at.reply), s.locks[i := p]);
        }
      }
    }
  }

  lemma FanOutOk(s: State, business: BusinessId, event: Event, payload: Payload)
    ensures BufferOk(FanOut(s, business, event, payload), event, payload)
  {}

  lemma EnqueueOutcomeKeeps(cfg: Config, s: State, p: Pid)
    requires Inv(cfg, s)
    ensures Inv(cfg, DoEnqueueOutcome(s, p))
    ensures Moved(s, p, DoEnqueueOutcome(s, p)) && Quiet(s, DoEnqueueOutcome(s, p))
  {
    if IsPay(s, p) && p in s.attempts {
      PayFacts(cfg, s, p);
      var o, pc := s.procs[p].order, s.procs[p].at;
      if (pc.Relocked? && pc.reply.Approved?) || (pc.Flushed? && pc.reply.Refused?) {
        var event, payload := OutcomeEvent(p, pc.reply), OutcomePayload(o, s.attempts[p].amountCents, pc.reply);
        FanOutOk(s, o.business, event, payload);
        PayStep(cfg, s, p, Enqueued(pc.reply, FanOut(s, o.business, event, payload)), s.locks);
      }
    }
  }

  lemma StartMoveKeeps(cfg: Config, s: State, p: Pid, business: BusinessId, invoice: Pid, target: InvoiceState)
    requires Inv(cfg, s)
    ensures Inv(cfg, DoStartMove(s, p, business, invoice, target))
    ensures Moved(s, p, DoStartMove(s, p, business, invoice, target)) &&
            Quiet(s, DoStartMove(s, p, business, invoice, target))
  {
    if p !in s.procs && target in {OPEN, VOID, UNCOLLECTIBLE} {
      LocalStep(cfg, s, p, Move(business, invoice, target, MoveStarted), s.locks);
    }
  }

  /** transition_invoice_state advances to mv' and nothing else changes but its lock. */
  lemma MoveStep(cfg: Config, s: State, p: Pid, mv': MovePc, locks': map<Pid, Pid>)
    requires Inv(cfg, s) && IsMove(s, p) && !s.procs[p].mv.MoveDone?
    requires MoveOk(cfg, TablesOf(s), s.procs[p].business, s.procs[p].target, s.procs[p].invoice, mv')
    requires LockDiscipline(s, p, s.procs[p].(mv := mv'), locks')
    ensures Inv(cfg, SetMove(s, p, mv').(locks := locks'))
    ensures Moved(s, p, SetMove(s, p, mv').(locks := locks')) && Quiet(s, SetMove(s, p, mv').(locks := locks'))
  {
    LocalStep(cfg, s, p, s.procs[p].(mv := mv'), locks');
  }

  lemma MoveFacts(cfg: Config, s: State, p: Pid)
    requires Inv(cfg, s) && IsMove(s, p)
    ensures MoveOk(cfg, TablesOf(s), s.procs[p].business, s.procs[p].target, s.procs[p].invoice, s.procs[p].mv)
  {
    assert Holds(cfg, s, ProcsClause);
    assert ProcOk(cfg, TablesOf(s), p, s.procs[p]);
  }

  lemma ReadMoveKeeps(cfg: Config, s: State, p: Pid)
    requires Inv(cfg, s)
    ensures Inv(cfg, DoReadMove(s, p))
    ensures Moved(s, p, DoReadMove(s, p)) && Quiet(s, DoReadMove(s, p))
  {
    if IsMove(s, p) && s.procs[p].mv.MoveStarted? {
      MoveFacts(cfg, s, p);
      var m := s.procs[p];
      if m.invoice !in s.invoices || s.invoices[m.invoice].business != m.business {
        MoveStep(cfg, s, p, MoveDone(MoveNotFound), s.locks);
      } else if !Allowed(s.invoices[m.invoice].state, m.target) {
        MoveStep(cfg, s, p, MoveDone(MoveRefused), s.locks);
      } else {
        MoveStep(cfg, s, p, MoveRead(s.invoices[m.invoice].state), s.locks);
      }
    }
  }

  lemma WriteMoveKeeps(cfg: Config, s: State, p: Pid)
    requires Inv(cfg, s)
    ensures Inv(cfg, DoWriteMove(cfg, s, p))
    ensures Moved(s, p, DoWriteMove(cfg, s, p)) && Quiet(s, DoWriteMove(cfg, s, p))
  {
    if IsMove(s, p) && s.procs[p].mv.MoveRead? {
      MoveFacts(cfg, s, p);
      var m := s.procs[p];
      if m.invoice in s.invoices && m.invoice !in s.locks
         && !(Atomic(cfg, m.target) && s.invoices[m.invoice].state != m.mv.seen) {
        MoveStep(cfg, s, p, MoveWritten(m.mv.seen), s.locks[m.invoice := p]);
      }
    }
  }

  lemma StartCreateKeeps(cfg: Config, s: State, p: Pid, business: BusinessId, customerExists: bool,
                         items: seq<LineItem>)
    requires Inv(cfg, s)
    ensures Inv(cfg, DoStartCreate(s, p, business, customerExists, items))
    ensures Moved(s, p, DoStartCreate(s, p, business, customerExists, items)) &&
            Quiet(s, DoStartCreate(s, p, business, customerExists, items))
  {
    if p !in s.procs {
      FreshFacts(cfg, s, p);
      LocalStep(cfg, s, p, Create(business, items, if customerExists then Building else CreateDone(CustomerNotFound)),
                s.locks);
    }
  }

  lemma CreateFacts(cfg: Config, s: State, p: Pid)
    requires Inv(cfg, s) && IsCreate(s, p)
    ensures CreateOk(TablesOf(s), p, s.procs[p].items, s.procs[p].cr)
  {
    assert Holds(cfg, s, ProcsClause);
    assert ProcOk(cfg, TablesOf(s), p, s.procs[p]);
  }

  lemma EnqueueCreateKeeps(cfg: Config, s: State, p: Pid)
    requires Inv(cfg, s)
    ensures Inv(cfg, DoEnqueueCreate(s, p))
    ensures Moved(s, p, DoEnqueueCreate(s, p)) && Quiet(s, DoEnqueueCreate(s, p))
  {
    if IsCreate(s, p) && s.procs[p].cr.Building? {
      CreateFacts(cfg, s, p);
      var c := s.procs[p];
      if !Storable(c.items) {
        LocalStep(cfg, s, p, c.(cr := CreateDone(CreateRefused)), s.locks);
      } else {
        var event, payload := InvoiceCreated(p), CreatedPayload(p, LineTotal(c.items));
        FanOutOk(s, c.business, event, payload);
        LocalStep(cfg, s, p, c.(cr := CreateEnqueued(FanOut(s, c.business, event, payload))), s.locks);
      }
    }
  }

  lemma AbortKeeps(cfg: Config, s: State, p: Pid)
    requires Inv(cfg, s)
    ensures Inv(cfg, DoAbort(s, p))
    ensures Moved(s, p, DoAbort(s, p)) && Quiet(s, DoAbort(s, p))
  {
    if p in s.procs && !Finished(s.procs[p]) {
      var pr := s.procs[p];
      assert Holds(cfg, s, ProcsClause);
      KilledOk(cfg, TablesOf(s), p, pr);
      LocalStep(cfg, s, p, Killed(pr), if Guarded(pr) then s.locks - {InvoiceOf(pr)} else s.locks);
    }
  }

  lemma KilledOk(cfg: Config, t: Tables, p: Pid, pr: Proc)
    requires ProcOk(cfg, t, p, pr)
    ensures ProcOk(cfg, t, p, Killed(pr)) && SameRequest(pr, Killed(pr)) && !Guarded(Killed(pr))
  {}

  /******* Steps that change the tables *******/

  /** Committed facts that no step takes back. */
  ghost predicate Grows(t: Tables, t': Tables) {
    && (forall a :: a in t.attempts ==>
          && a in t'.attempts
          && t'.attempts[a].invoice == t.attempts[a].invoice
          && t'.attempts[a].key == t.attempts[a].key
          && t'.attempts[a].requestHash == t.attempts[a].requestHash
          && t'.attempts[a].amountCents == t.attempts[a].amountCents
          && (t.attempts[a].status != PENDING ==> t'.attempts[a] == t.attempts[a]))
    && (forall i :: i in t.invoices ==>
          && i in t'.invoices
          && t'.invoices[i] == t.invoices[i].(state := t'.invoices[i].state))
  }

  /** What request q relies on did not change. */
  ghost predicate Undisturbed(t: Tables, t': Tables, q: Pid, pr: Proc) {
    && (q in t'.attempts <==> q in t.attempts)
    && (q in t.attempts ==> t'.attempts[q] == t.attempts[q])
    && (q in t'.psp <==> q in t.psp)
    && (q in t.psp ==> t'.psp[q] == t.psp[q])
    && (q in t'.invoices <==> q in t.invoices)
    && (Guarded(pr) && InvoiceOf(pr) in t.invoices && InvoiceOf(pr) in t'.invoices ==>
          t'.invoices[InvoiceOf(pr)].state == t.invoices[InvoiceOf(pr)].state)
    && (Guarded(pr) ==> forall a :: a in t'.attempts && a !in t.attempts ==> t'.attempts[a].invoice != InvoiceOf(pr))
  }

  lemma ProcFrame(cfg: Config, t: Tables, t': Tables, q: Pid, pr: Proc)
    requires ProcOk(cfg, t, q, pr) && Grows(t, t') && Undisturbed(t, t', q, pr)
    ensures ProcOk(cfg, t', q, pr)
  {
    if pr.Pay? { ConflictFrame(cfg, t, t', pr.order); }
  }

  lemma ConflictFrame(cfg: Config, t: Tables, t': Tables, o: Order)
    requires Grows(t, t')
    ensures KeyUsed(t, o) ==> KeyUsed(t', o)
    ensures OtherBody(cfg, t, o) ==> OtherBody(cfg, t', o)
    ensures NothingDue(t, o.invoice) ==> NothingDue(t', o.invoice)
  {
    if KeyUsed(t, o) {
      var a :| RowOf(t.attempts, a, o);
      assert RowOf(t'.attempts, a, o);
    }
    if OtherBody(cfg, t, o) {
      var a :| RowOf(t.attempts, a, o) && t.attempts[a].requestHash != cfg.hash(o.cardToken);
      assert RowOf(t'.attempts, a, o);
    }
  }

  /** While p holds the lock of its invoice, no other request holds it. */
  lemma OnlyGuard(cfg: Config, s: State, p: Pid, q: Pid)
    requires Inv(cfg, s)
    requires p in s.procs && Guarded(s.procs[p]) && q in s.procs && Guarded(s.procs[q]) && p != q
    ensures InvoiceOf(s.procs[q]) != InvoiceOf(s.procs[p])
  {
    assert Holds(cfg, s, LocksClause);
    assert HoldsLock(s, p) && HoldsLock(s, q);
  }

  lemma GuardedApart(cfg: Config, s: State, p: Pid)
    requires Inv(cfg, s) && p in s.procs && Guarded(s.procs[p])
    ensures forall q :: q in s.procs && q != p && Guarded(s.procs[q]) ==> InvoiceOf(s.procs[q]) != InvoiceOf(s.procs[p])
  {
    forall q | q in s.procs && q != p && Guarded(s.procs[q])
      ensures InvoiceOf(s.procs[q]) != InvoiceOf(s.procs[p])
    {
      OnlyGuard(cfg, s, p, q);
    }
  }

  /* Each of the next lemmas carries one clause over a step in which request p moves. */

  lemma LocksHold(cfg: Config, s: State, p: Pid, s': State)
    requires Inv(cfg, s)
    requires p in s'.procs && s'.procs == s.procs[p := s'.procs[p]] && LockDiscipline(s, p, s'.procs[p], s'.locks)
    requires p in s.procs ==> SameRequest(s.procs[p], s'.procs[p])
    ensures Holds(cfg, s', LocksClause)
  {
    assert Holds(cfg, s, LocksClause);
    LocksKept(s, p, s');
  }

  lemma ProcsHold(cfg: Config, s: State, p: Pid, s': State)
    requires Inv(cfg, s) && Grows(TablesOf(s), TablesOf(s'))
    requires forall q :: q in s'.procs && q != p ==> q in s.procs && s'.procs[q] == s.procs[q]
    requires forall q :: q in s.procs && q != p ==> Undisturbed(TablesOf(s), TablesOf(s'), q, s.procs[q])
    requires p in s'.procs ==> ProcOk(cfg, TablesOf(s'), p, s'.procs[p])
    ensures Holds(cfg, s', ProcsClause)
  {
    assert Holds(cfg, s, ProcsClause);
    forall q | q in s'.procs ensures ProcOk(cfg, TablesOf(s'), q, s'.procs[q]) {
      if q != p {
        assert ProcOk(cfg, TablesOf(s), q, s.procs[q]);
        assert Undisturbed(TablesOf(s), TablesOf(s'), q, s.procs[q]);
        ProcFrame(cfg, TablesOf(s), TablesOf(s'), q, s.procs[q]);
      }
    }
  }

  /** At most the state changes, and not back to a draft. */
  ghost predicate StaysIssued(inv: Invoice, inv': Invoice) {
    inv' == inv.(state := inv'.state) && (inv.state != DRAFT ==> inv'.state != DRAFT)
  }

  lemma AttemptsHold(cfg: Config, s: State, p: Pid, s': State)
    requires Inv(cfg, s)
    requires forall q :: q in s.procs && q != p ==> q in s'.procs && s'.procs[q] == s.procs[q]
    requires forall a :: a in s'.attempts && a != p ==> a in s.attempts && s'.attempts[a] == s.attempts[a]
    requires forall c :: c in s.psp && c != p ==> c in s'.psp && s'.psp[c] == s.psp[c]
    requires forall i :: i in s.invoices ==> i in s'.invoices && StaysIssued(s.invoices[i], s'.invoices[i])
    requires p in s'.attempts ==>
               && p in s'.procs
               && AttemptRow(cfg, s'.attempts[p], p, s'.procs[p], s'.invoices)
               && AttemptOutcome(s'.attempts[p], p, TablesOf(s'))
    ensures Holds(cfg, s', AttemptsClause)
  {
    assert Holds(cfg, s, AttemptsClause);
  }

  lemma PspHolds(cfg: Config, s: State, s': State)
    requires Inv(cfg, s)
    requires forall a :: a in s.attempts ==> a in s'.attempts && s'.attempts[a].amountCents == s.attempts[a].amountCents
    requires forall c :: c in s'.psp ==>
               || (c in s.psp && s'.psp[c].amountCents == s.psp[c].amountCents)
               || (c in s'.attempts && s'.psp[c].amountCents == s'.attempts[c].amountCents)
    ensures Holds(cfg, s', PspClause)
  {
    assert Holds(cfg, s, PspClause);
  }

  /** Attempts only gained rows or were resolved, and a newly paid invoice has its payment. */
  lemma InvoicesHold(cfg: Config, s: State, p: Pid, s': State)
    requires Inv(cfg, s) && Grows(TablesOf(s), TablesOf(s'))
    requires forall q :: q in s.procs && (q != p || s.procs[q].Create?) ==>
               q in s'.procs && (Finished(s.procs[q]) ==> s'.procs[q] == s.procs[q])
    requires forall i :: i in s'.invoices && i !in s.invoices ==>
               && i in s'.procs && s'.procs[i].Create? && s'.procs[i].cr.CreateDone?
               && InvoiceRow(s'.invoices[i]) && s'.invoices[i].state != PAID
    requires forall i :: i in s.invoices && s'.invoices[i].state == PAID ==>
               s.invoices[i].state == PAID || PaidBy(s'.attempts, i, p)
    ensures Holds(cfg, s', InvoicesClause)
  {
    assert Holds(cfg, s, InvoicesClause);
    forall i | i in s'.invoices && s'.invoices[i].state == PAID ensures exists a :: PaidBy(s'.attempts, i, a) {
      if i in s.invoices && s.invoices[i].state == PAID {
        var a :| PaidBy(s.attempts, i, a);
        assert PaidBy(s'.attempts, i, a);
      }
    }
  }

  lemma DeliveriesHold(cfg: Config, s: State, s': State)
    requires Inv(cfg, s) && s'.deliveries == s.deliveries && Grows(TablesOf(s), TablesOf(s'))
    ensures Holds(cfg, s', DeliveriesClause)
  {
    assert Holds(cfg, s, DeliveriesClause);
  }

  /** Committing buffered rows of an event that had not happened before. */
  lemma DeliveriesAdded(cfg: Config, s: State, s': State, outbox: multiset<Delivery>, event: Event, payload: Payload)
    requires Inv(cfg, s) && Grows(TablesOf(s), TablesOf(s'))
    requires s'.deliveries == s.deliveries + outbox && BufferOk(outbox, event, payload)
    requires !Happened(TablesOf(s), event) && Happened(TablesOf(s'), event) && PayloadOf(TablesOf(s'), event) == payload
    ensures Holds(cfg, s', DeliveriesClause)
  {
    assert Holds(cfg, s, DeliveriesClause);
  }

  lemma ExclusionHolds(cfg: Config, s: State, s': State)
    requires Inv(cfg, s)
    requires forall a :: a in s'.attempts ==>
               && a in s.attempts
               && s'.attempts[a].invoice == s.attempts[a].invoice && s'.attempts[a].key == s.attempts[a].key
               && (s.attempts[a].status == FAILED ==> s'.attempts[a].status == FAILED)
               && (s'.attempts[a].status == PENDING ==> s.attempts[a].status == PENDING)
    ensures Holds(cfg, s', ExclusionClause)
  {
    assert Holds(cfg, s, ExclusionClause);
  }

  /** No invoice becomes paid, and a new pending attempt is on an unpaid one. */
  lemma UnpaidHolds(cfg: Config, s: State, s': State)
    requires Inv(cfg, s)
    requires forall i :: i in s'.invoices && s'.invoices[i].state == PAID ==>
               i in s.invoices && s.invoices[i].state == PAID
    requires forall a :: a in s'.attempts && s'.attempts[a].status == PENDING ==>
               || (a in s.attempts && s.attempts[a].status == PENDING &&
                   s'.attempts[a].invoice == s.attempts[a].invoice)
               || (s'.attempts[a].invoice in s'.invoices ==> s'.invoices[s'.attempts[a].invoice].state != PAID)
    ensures Holds(cfg, s', UnpaidClause)
  {
    assert Holds(cfg, s, UnpaidClause);
  }

  lemma ReservationExcludes(cfg: Config, s: State, p: Pid)
    requires Inv(cfg, s) && IsPay(s, p) && s.procs[p].at.Inserted?
    ensures Holds(cfg, DoCommitReservation(cfg, s, p), ExclusionClause)
  {
    PayFacts(cfg, s, p);
    assert Holds(cfg, s, ExclusionClause);
  }

  lemma ReservationProcs(cfg: Config, s: State, p: Pid)
    requires Inv(cfg, s) && IsPay(s, p) && s.procs[p].at.Inserted?
    ensures Holds(cfg, DoCommitReservation(cfg, s, p), ProcsClause)
  {
    var s' := DoCommitReservation(cfg, s, p);
    assert PayOk(cfg, TablesOf(s'), p, s'.procs[p].order, Reserved) by { PayFacts(cfg, s, p); }
    forall q | q in s.procs && q != p ensures Undisturbed(TablesOf(s), TablesOf(s'), q, s.procs[q]) {
      GuardedApart(cfg, s, p);
    }
    assert Grows(TablesOf(s), TablesOf(s')) by { PayFacts(cfg, s, p); }
    ProcsHold(cfg, s, p, s');
  }

  lemma CommitReservationFrame(cfg: Config, s: State, p: Pid)
    requires Inv(cfg, s)
    ensures Moved(s, p, DoCommitReservation(cfg, s, p)) && Grows(TablesOf(s), TablesOf(DoCommitReservation(cfg, s, p)))
  {
    if IsPay(s, p) && s.procs[p].at.Inserted? { PayFacts(cfg, s, p); }
  }

  lemma CommitReservationKeeps(cfg: Config, s: State, p: Pid)
    requires Inv(cfg, s)
    ensures Inv(cfg, DoCommitReservation(cfg, s, p))
  {
    if IsPay(s, p) && s.procs[p].at.Inserted? {
      var s' := DoCommitReservation(cfg, s, p);
      PayFacts(cfg, s, p);
      forall clause: Clause ensures Holds(cfg, s', clause) {
        match clause {
          case LocksClause => LocksHold(cfg, s, p, s');
          case ProcsClause => ReservationProcs(cfg, s, p);
          case AttemptsClause => AttemptsHold(cfg, s, p, s');
          case ExclusionClause => ReservationExcludes(cfg, s, p);
          case UnpaidClause => UnpaidHolds(cfg, s, s');
          case PspClause => PspHolds(cfg, s, s');
          case InvoicesClause => InvoicesHold(cfg, s, p, s');
          case DeliveriesClause => DeliveriesHold(cfg, s, s');
        }
      }
    }
  }

  lemma SendChargeFrame(cfg: Config, s: State, p: Pid)
    requires Inv(cfg, s)
    ensures Moved(s, p, DoSendCharge(s, p)) && Grows(TablesOf(s), TablesOf(DoSendCharge(s, p)))
  {}

  lemma SendChargeKeeps(cfg: Config, s: State, p: Pid)
    requires Inv(cfg, s)
    ensures Inv(cfg, DoSendCharge(s, p))
  {
    if IsPay(s, p) && s.procs[p].at.Reserved? {
      var s' := DoSendCharge(s, p);
      PayFacts(cfg, s, p);
      RowFacts(cfg, s, p);
      forall clause: Clause ensures Holds(cfg, s', clause) {
        match clause {
          case LocksClause => LocksHold(cfg, s, p, s');
          case ProcsClause => ProcsHold(cfg, s, p, s');
          case AttemptsClause => AttemptsHold(cfg, s, p, s');
          case ExclusionClause => ExclusionHolds(cfg, s, s');
          case UnpaidClause => UnpaidHolds(cfg, s, s');
          case PspClause => PspHolds(cfg, s, s');
          case InvoicesClause => InvoicesHold(cfg, s, p, s');
          case DeliveriesClause => DeliveriesHold(cfg, s, s');
        }
      }
    }
  }

  lemma DecisionProcs(cfg: Config, s: State, p: Pid, stage: ChargeStage)
    requires Inv(cfg, s) && p in s.psp && s.psp[p].stage == Undecided
    ensures Holds(cfg, DoPspDecides(s, p, stage), ProcsClause)
  {
    ChargeFacts(cfg, s, p);
    PayFacts(cfg, s, p);
    ProcsHold(cfg, s, p, DoPspDecides(s, p, stage));
  }

  lemma DecisionAttempts(cfg: Config, s: State, p: Pid, stage: ChargeStage)
    requires Inv(cfg, s) && p in s.psp && s.psp[p].stage == Undecided
    ensures Holds(cfg, DoPspDecides(s, p, stage), AttemptsClause)
  {
    ChargeFacts(cfg, s, p);
    RowFacts(cfg, s, p);
    AttemptsHold(cfg, s, p, DoPspDecides(s, p, stage));
  }

  lemma PspDecidesKeeps(cfg: Config, s: State, p: Pid, stage: ChargeStage)
    requires Inv(cfg, s)
    ensures Inv(cfg, DoPspDecides(s, p, stage))
    ensures DoPspDecides(s, p, stage).procs == s.procs && Grows(TablesOf(s), TablesOf(DoPspDecides(s, p, stage)))
  {
    if p in s.psp && s.psp[p].stage == Undecided {
      var s' := DoPspDecides(s, p, stage);
      forall clause: Clause ensures Holds(cfg, s', clause) {
        match clause {
          case LocksClause => assert Holds(cfg, s, LocksClause);
          case ProcsClause => DecisionProcs(cfg, s, p, stage);
          case AttemptsClause => DecisionAttempts(cfg, s, p, stage);
          case ExclusionClause => ExclusionHolds(cfg, s, s');
          case UnpaidClause => UnpaidHolds(cfg, s, s');
          case PspClause => PspHolds(cfg, s, s');
          case InvoicesClause => InvoicesHold(cfg, s, p, s');
          case DeliveriesClause => DeliveriesHold(cfg, s, s');
        }
      }
    }
  }

  /******* The second commit *******/

  lemma LostProcs(cfg: Config, s: State, p: Pid)
    requires Inv(cfg, s) && AtLost(s, p)
    ensures Holds(cfg, CommitLost(s, p), ProcsClause)
  {
    PayFacts(cfg, s, p);
    RowFacts(cfg, s, p);
    ProcsHold(cfg, s, p, CommitLost(s, p));
  }

  lemma LostAttempts(cfg: Config, s: State, p: Pid)
    requires Inv(cfg, s) && AtLost(s, p)
    ensures Holds(cfg, CommitLost(s, p), AttemptsClause)
  {
    PayFacts(cfg, s, p);
    RowFacts(cfg, s, p);
    AttemptsHold(cfg, s, p, CommitLost(s, p));
  }

  lemma CommitLostFrame(cfg: Config, s: State, p: Pid)
    requires Inv(cfg, s) && AtLost(s, p)
    ensures Moved(s, p, CommitLost(s, p)) && Grows(TablesOf(s), TablesOf(CommitLost(s, p)))
  {
    PayFacts(cfg, s, p);
  }

  lemma CommitLostKeeps(cfg: Config, s: State, p: Pid)
    requires Inv(cfg, s) && AtLost(s, p)
    ensures Inv(cfg, CommitLost(s, p))
  {
    var s' := CommitLost(s, p);
    PayFacts(cfg, s, p);
    forall clause: Clause ensures Holds(cfg, s', clause) {
      match clause {
        case LocksClause => LocksHold(cfg, s, p, s');
        case ProcsClause => LostProcs(cfg, s, p);
        case AttemptsClause => LostAttempts(cfg, s, p);
        case ExclusionClause => ExclusionHolds(cfg, s, s');
        case UnpaidClause => UnpaidHolds(cfg, s, s');
        case PspClause => PspHolds(cfg, s, s');
        case InvoicesClause => InvoicesHold(cfg, s, p, s');
        case DeliveriesClause => DeliveriesHold(cfg, s, s');
      }
    }
  }

  lemma RefusedProcs(cfg: Config, s: State, p: Pid)
    requires Inv(cfg, s) && AtRefused(s, p)
    ensures Holds(cfg, CommitRefused(s, p), ProcsClause)
  {
    PayFacts(cfg, s, p);
    RowFacts(cfg, s, p);
    ProcsHold(cfg, s, p, CommitRefused(s, p));
  }

  lemma RefusedAttempts(cfg: Config, s: State, p: Pid)
    requires Inv(cfg, s) && AtRefused(s, p)
    ensures Holds(cfg, CommitRefused(s, p), AttemptsClause)
  {
    PayFacts(cfg, s, p);
    RowFacts(cfg, s, p);
    AttemptsHold(cfg, s, p, CommitRefused(s, p));
  }

  lemma RefusedDeliveries(cfg: Config, s: State, p: Pid)
    requires Inv(cfg, s) && AtRefused(s, p)
    ensures Holds(cfg, CommitRefused(s, p), DeliveriesClause)
  {
    PayFacts(cfg, s, p);
    RowFacts(cfg, s, p);
    var t' := TablesOf(CommitRefused(s, p));
    DeliveriesAdded(cfg, s, CommitRefused(s, p), s.procs[p].at.outbox, PaymentFailed(p),
                    PayloadOf(t', PaymentFailed(p)));
  }

  lemma CommitRefusedFrame(cfg: Config, s: State, p: Pid)
    requires Inv(cfg, s) && AtRefused(s, p)
    ensures Moved(s, p, CommitRefused(s, p)) && Grows(TablesOf(s), TablesOf(CommitRefused(s, p)))
  {
    PayFacts(cfg, s, p);
  }

  lemma CommitRefusedKeeps(cfg: Config, s: State, p: Pid)
    requires Inv(cfg, s) && AtRefused(s, p)
    ensures Inv(cfg, CommitRefused(s, p))
  {
    var s' := CommitRefused(s, p);
    PayFacts(cfg, s, p);
    forall clause: Clause ensures Holds(cfg, s', clause) {
      match clause {
        case LocksClause => LocksHold(cfg, s, p, s');
        case ProcsClause => RefusedProcs(cfg, s, p);
        case AttemptsClause => RefusedAttempts(cfg, s, p);
        case ExclusionClause => ExclusionHolds(cfg, s, s');
        case UnpaidClause => UnpaidHolds(cfg, s, s');
        case PspClause => PspHolds(cfg, s, s');
        case InvoicesClause => InvoicesHold(cfg, s, p, s');
        case DeliveriesClause => RefusedDeliveries(cfg, s, p);
      }
    }
  }

  lemma ApprovedProcs(cfg: Config, s: State, p: Pid)
    requires Inv(cfg, s) && AtApproved(s, p)
    ensures Holds(cfg, CommitApproved(s, p), ProcsClause)
  {
    PayFacts(cfg, s, p);
    RowFacts(cfg, s, p);
    GuardedApart(cfg, s, p);
    ProcsHold(cfg, s, p, CommitApproved(s, p));
  }

  lemma ApprovedAttempts(cfg: Config, s: State, p: Pid)
    requires Inv(cfg, s) && AtApproved(s, p)
    ensures Holds(cfg, CommitApproved(s, p), AttemptsClause)
  {
    PayFacts(cfg, s, p);
    RowFacts(cfg, s, p);
    AttemptsHold(cfg, s, p, CommitApproved(s, p));
  }

  lemma ApprovedDeliveries(cfg: Config, s: State, p: Pid)
    requires Inv(cfg, s) && AtApproved(s, p)
    ensures Holds(cfg, CommitApproved(s, p), DeliveriesClause)
  {
    PayFacts(cfg, s, p);
    RowFacts(cfg, s, p);
    var t' := TablesOf(CommitApproved(s, p));
    DeliveriesAdded(cfg, s, CommitApproved(s, p), s.procs[p].at.outbox, InvoicePaid(p), PayloadOf(t', InvoicePaid(p)));
  }

  lemma ApprovedUnpaid(cfg: Config, s: State, p: Pid)
    requires Inv(cfg, s) && AtApproved(s, p)
    ensures Holds(cfg, CommitApproved(s, p), UnpaidClause)
  {
    PayFacts(cfg, s, p);
    RowFacts(cfg, s, p);
    assert Holds(cfg, s, ExclusionClause) && Holds(cfg, s, UnpaidClause);
  }

  lemma CommitApprovedFrame(cfg: Config, s: State, p: Pid)
    requires Inv(cfg, s) && AtApproved(s, p)
    ensures Moved(s, p, CommitApproved(s, p)) && Grows(TablesOf(s), TablesOf(CommitApproved(s, p)))
  {
    PayFacts(cfg, s, p);
  }

  lemma CommitApprovedKeeps(cfg: Config, s: State, p: Pid)
    requires Inv(cfg, s) && AtApproved(s, p)
    ensures Inv(cfg, CommitApproved(s, p))
  {
    var s' := CommitApproved(s, p);
    PayFacts(cfg, s, p);
    forall clause: Clause ensures Holds(cfg, s', clause) {
      match clause {
        case LocksClause => LocksHold(cfg, s, p, s');
        case ProcsClause => ApprovedProcs(cfg, s, p);
        case AttemptsClause => ApprovedAttempts(cfg, s, p);
        case ExclusionClause => ExclusionHolds(cfg, s, s');
        case UnpaidClause => ApprovedUnpaid(cfg, s, p);
        case PspClause => PspHolds(cfg, s, s');
        case InvoicesClause =>
          RowFacts(cfg, s, p);
          InvoicesHold(cfg, s, p, s');
        case DeliveriesClause => ApprovedDeliveries(cfg, s, p);
      }
    }
  }

  lemma CommitOutcomeKeeps(cfg: Config, s: State, p: Pid)
    requires Inv(cfg, s)
    ensures Inv(cfg, DoCommitOutcome(s, p))
    ensures Moved(s, p, DoCommitOutcome(s, p)) && Grows(TablesOf(s), TablesOf(DoCommitOutcome(s, p)))
  {
    if AtLost(s, p) {
      CommitLostKeeps(cfg, s, p);
      CommitLostFrame(cfg, s, p);
    } else if AtRefused(s, p) {
      CommitRefusedKeeps(cfg, s, p);
      CommitRefusedFrame(cfg, s, p);
    } else if AtApproved(s, p) {
      CommitApprovedKeeps(cfg, s, p);
      CommitApprovedFrame(cfg, s, p);
    }
  }

  lemma RefreshAttemptKeeps(cfg: Config, s: State, p: Pid)
    requires Inv(cfg, s)
    ensures Inv(cfg, DoRefreshAttempt(s, p))
    ensures Moved(s, p, DoRefreshAttempt(s, p)) && Quiet(s, DoRefreshAttempt(s, p))
  {
    if IsPay(s, p) && s.procs[p].at.Refreshing? && p in s.attempts {
      RowFacts(cfg, s, p);
      PayStep(cfg, s, p, PayDone(Returned(p, s.attempts[p].status, false)), s.locks);
    }
  }

  /******* Writing invoices *******/

  lemma NoAttemptRow(cfg: Config, s: State, p: Pid)
    requires Inv(cfg, s) && p in s.procs && !s.procs[p].Pay?
    ensures Unused(TablesOf(s), p)
  {
    if p in s.psp { ChargeFacts(cfg, s, p); }
    if p in s.attempts { RowFacts(cfg, s, p); }
  }

  lemma CreatedProcs(cfg: Config, s: State, p: Pid)
    requires Inv(cfg, s) && IsCreate(s, p) && s.procs[p].cr.CreateEnqueued?
    ensures Holds(cfg, DoCommitCreate(s, p), ProcsClause)
  {
    CreateFacts(cfg, s, p);
    NoAttemptRow(cfg, s, p);
    ProcsHold(cfg, s, p, DoCommitCreate(s, p));
  }

  lemma CommitCreateFrame(cfg: Config, s: State, p: Pid)
    requires Inv(cfg, s)
    ensures Moved(s, p, DoCommitCreate(s, p)) && Grows(TablesOf(s), TablesOf(DoCommitCreate(s, p)))
  {
    if IsCreate(s, p) && s.procs[p].cr.CreateEnqueued? {
      CreateFacts(cfg, s, p);
      NewInvoiceGrows(TablesOf(s), p,
                      Invoice(s.procs[p].business, s.procs[p].items, LineTotal(s.procs[p].items), DRAFT));
    }
  }

  lemma NewInvoiceGrows(t: Tables, p: Pid, inv: Invoice)
    requires p !in t.invoices
    ensures Grows(t, t.(invoices := t.invoices[p := inv]))
  {}

  lemma CommitCreateKeeps(cfg: Config, s: State, p: Pid)
    requires Inv(cfg, s)
    ensures Inv(cfg, DoCommitCreate(s, p))
  {
    if IsCreate(s, p) && s.procs[p].cr.CreateEnqueued? {
      var s', c := DoCommitCreate(s, p), s.procs[p];
      CreateFacts(cfg, s, p);
      NoAttemptRow(cfg, s, p);
      forall clause: Clause ensures Holds(cfg, s', clause) {
        match clause {
          case LocksClause => LocksHold(cfg, s, p, s');
          case ProcsClause => CreatedProcs(cfg, s, p);
          case AttemptsClause => AttemptsHold(cfg, s, p, s');
          case ExclusionClause => ExclusionHolds(cfg, s, s');
          case UnpaidClause => UnpaidHolds(cfg, s, s');
          case PspClause => PspHolds(cfg, s, s');
          case InvoicesClause => InvoicesHold(cfg, s, p, s');
          case DeliveriesClause =>
            DeliveriesAdded(cfg, s, s', c.cr.outbox, InvoiceCreated(p), CreatedPayload(p, LineTotal(c.items)));
        }
      }
    }
  }

  lemma MoveProcs(cfg: Config, s: State, p: Pid)
    requires Inv(cfg, s) && IsMove(s, p) && s.procs[p].mv.MoveWritten? && s.procs[p].invoice in s.invoices
    ensures Holds(cfg, DoCommitMove(s, p), ProcsClause)
  {
    MoveFacts(cfg, s, p);
    NoAttemptRow(cfg, s, p);
    GuardedApart(cfg, s, p);
    ProcsHold(cfg, s, p, DoCommitMove(s, p));
  }

  lemma CommitMoveFrame(cfg: Config, s: State, p: Pid)
    requires Inv(cfg, s)
    ensures Moved(s, p, DoCommitMove(s, p)) && Grows(TablesOf(s), TablesOf(DoCommitMove(s, p)))
  {
    CommitMoveGrows(s, p);
  }

  lemma CommitMoveGrows(s: State, p: Pid)
    ensures Grows(TablesOf(s), TablesOf(DoCommitMove(s, p)))
  {}

  lemma CommitMoveKeeps(cfg: Config, s: State, p: Pid)
    requires Inv(cfg, s)
    ensures Inv(cfg, DoCommitMove(s, p))
  {
    if IsMove(s, p) && s.procs[p].mv.MoveWritten? && s.procs[p].invoice in s.invoices {
      var s' := DoCommitMove(s, p);
      MoveFacts(cfg, s, p);
      NoAttemptRow(cfg, s, p);
      forall clause: Clause ensures Holds(cfg, s', clause) {
        match clause {
          case LocksClause => LocksHold(cfg, s, p, s');
          case ProcsClause => MoveProcs(cfg, s, p);
          case AttemptsClause => AttemptsHold(cfg, s, p, s');
          case ExclusionClause => ExclusionHolds(cfg, s, s');
          case UnpaidClause => UnpaidHolds(cfg, s, s');
          case PspClause => PspHolds(cfg, s, s');
          case InvoicesClause => InvoicesHold(cfg, s, p, s');
          case DeliveriesClause => DeliveriesHold(cfg, s, s');
        }
      }
    }
  }

  /******* Every step, every run *******/

  lemma EndpointsKeep(cfg: Config, s: State, endpoints: map<EndpointId, Endpoint>)
    requires Inv(cfg, s)
    ensures Inv(cfg, s.(endpoints := endpoints))
    ensures s.(endpoints := endpoints).procs == s.procs && Quiet(s, s.(endpoints := endpoints))
  {
    var s' := s.(endpoints := endpoints);
    forall clause: Clause ensures Holds(cfg, s', clause) {
      assert Holds(cfg, s, clause);
      match clause {
        case LocksClause =>
          forall i | i in s'.locks ensures LockHeld(s', i) { assert LockHeld(s, i); }
          forall q | q in s'.procs && Guarded(s'.procs[q]) ensures HoldsLock(s', q) { assert HoldsLock(s, q); }
        case _ =>
      }
    }
  }

  /** The request whose program counter the step moves; none for the provider and for endpoints. */
  function Actor(step: Step): Option<Pid> {
    if step.PspCharges? || step.PspDeclines? || step.CreateEndpoint? || step.DeactivateEndpoint? then None
    else Some(step.p)
  }

  ghost predicate WritesTables(step: Step) {
    || step.CommitReservation? || step.SendCharge? || step.CommitOutcome? || step.CommitMove? || step.CommitCreate?
    || step.PspCharges? || step.PspDeclines?
  }

  /** What a step leaves alone: other requests, committed facts, and all tables unless it is a write. */
  ghost predicate Framed(s: State, step: Step, s': State) {
    && (if Actor(step).Some? then Moved(s, Actor(step).value, s') else s'.procs == s.procs)
    && Grows(TablesOf(s), TablesOf(s'))
    && (!WritesTables(step) ==> Quiet(s, s'))
  }

  lemma LookupStepKeeps(cfg: Config, s: State, step: Step)
    requires Inv(cfg, s)
    requires step.StartPay? || step.CacheLookup? || step.LockInvoice?
    ensures Inv(cfg, Apply(cfg, s, step)) && Framed(s, step, Apply(cfg, s, step))
  {
    match step
    case StartPay(p, order) => StartPayKeeps(cfg, s, p, order);
    case CacheLookup(p) => CacheLookupKeeps(cfg, s, p);
    case LockInvoice(p) => LockInvoiceKeeps(cfg, s, p);
  }

  lemma InsertStepKeeps(cfg: Config, s: State, step: Step)
    requires Inv(cfg, s)
    requires step.InsertAttempt? || step.RefetchWinner?
    ensures Inv(cfg, Apply(cfg, s, step)) && Framed(s, step, Apply(cfg, s, step))
  {
    match step
    case InsertAttempt(p, report) => InsertAttemptKeeps(cfg, s, p, report);
    case RefetchWinner(p) => RefetchWinnerKeeps(cfg, s, p);
  }

  lemma ReservationStepKeeps(cfg: Config, s: State, p: Pid)
    requires Inv(cfg, s)
    ensures Inv(cfg, DoCommitReservation(cfg, s, p)) && Framed(s, CommitReservation(p), DoCommitReservation(cfg, s, p))
  {
    CommitReservationKeeps(cfg, s, p);
    CommitReservationFrame(cfg, s, p);
  }

  lemma SendStepKeeps(cfg: Config, s: State, p: Pid)
    requires Inv(cfg, s)
    ensures Inv(cfg, DoSendCharge(s, p)) && Framed(s, SendCharge(p), DoSendCharge(s, p))
  {
    SendChargeKeeps(cfg, s, p);
    SendChargeFrame(cfg, s, p);
  }

  lemma ReplyStepKeeps(cfg: Config, s: State, step: Step)
    requires Inv(cfg, s)
    requires step.ReplyArrives? || step.ReplyLost?
    ensures Inv(cfg, Apply(cfg, s, step)) && Framed(s, step, Apply(cfg, s, step))
  {
    match step
    case ReplyArrives(p, pspRef) => ReplyArrivesKeeps(cfg, s, p, pspRef);
    case ReplyLost(p, error) => ReplyLostKeeps(cfg, s, p, error);
  }

  lemma FlushStepKeeps(cfg: Config, s: State, p: Pid)
    requires Inv(cfg, s)
    ensures Inv(cfg, DoFlushOutcome(s, p)) && Framed(s, FlushOutcome(p), DoFlushOutcome(s, p))
  {
    FlushOutcomeKeeps(cfg, s, p);
  }

  lemma RelockStepKeeps(cfg: Config, s: State, p: Pid, stale: bool)
    requires Inv(cfg, s)
    ensures Inv(cfg, DoRelockInvoice(cfg, s, p, stale)) &&
            Framed(s, RelockInvoice(p, stale), DoRelockInvoice(cfg, s, p, stale))
  {
    RelockInvoiceKeeps(cfg, s, p, stale);
  }

  lemma EnqueueStepKeeps(cfg: Config, s: State, p: Pid)
    requires Inv(cfg, s)
    ensures Inv(cfg, DoEnqueueOutcome(s, p)) && Framed(s, EnqueueOutcome(p), DoEnqueueOutcome(s, p))
  {
    EnqueueOutcomeKeeps(cfg, s, p);
  }

  lemma OutcomeStepKeeps(cfg: Config, s: State, p: Pid)
    requires Inv(cfg, s)
    ensures Inv(cfg, DoCommitOutcome(s, p)) && Framed(s, CommitOutcome(p), DoCommitOutcome(s, p))
  {
    CommitOutcomeKeeps(cfg, s, p);
  }

  lemma RefreshStepKeeps(cfg: Config, s: State, p: Pid)
    requires Inv(cfg, s)
    ensures Inv(cfg, DoRefreshAttempt(s, p)) && Framed(s, RefreshAttempt(p), DoRefreshAttempt(s, p))
  {
    RefreshAttemptKeeps(cfg, s, p);
  }

  lemma ReadStepKeeps(cfg: Config, s: State, step: Step)
    requires Inv(cfg, s)
    requires step.StartMove? || step.ReadMove?
    ensures Inv(cfg, Apply(cfg, s, step)) && Framed(s, step, Apply(cfg, s, step))
  {
    match step
    case StartMove(p, business, invoice, target) => StartMoveKeeps(cfg, s, p, business, invoice, target);
    case ReadMove(p) => ReadMoveKeeps(cfg, s, p);
  }

  lemma MoveStepKeeps(cfg: Config, s: State, step: Step)
    requires Inv(cfg, s)
    requires step.WriteMove? || step.CommitMove?
    ensures Inv(cfg, Apply(cfg, s, step)) && Framed(s, step, Apply(cfg, s, step))
  {
    match step
    case WriteMove(p) => WriteMoveKeeps(cfg, s, p);
    case CommitMove(p) =>
      CommitMoveKeeps(cfg, s, p);
      CommitMoveFrame(cfg, s, p);
  }

  lemma CreateStepKeeps(cfg: Config, s: State, step: Step)
    requires Inv(cfg, s)
    requires step.StartCreate? || step.EnqueueCreate?
    ensures Inv(cfg, Apply(cfg, s, step)) && Framed(s, step, Apply(cfg, s, step))
  {
    match step
    case StartCreate(p, business, customerExists, items) =>
      StartCreateKeeps(cfg, s, p, business, customerExists, items);
    case EnqueueCreate(p) => EnqueueCreateKeeps(cfg, s, p);
  }

  lemma CommitCreateStepKeeps(cfg: Config, s: State, p: Pid)
    requires Inv(cfg, s)
    ensures Inv(cfg, DoCommitCreate(s, p)) && Framed(s, CommitCreate(p), DoCommitCreate(s, p))
  {
    CommitCreateKeeps(cfg, s, p);
    CommitCreateFrame(cfg, s, p);
  }

  lemma AbortStepKeeps(cfg: Config, s: State, step: Step)
    requires Inv(cfg, s)
    requires step.Abort?
    ensures Inv(cfg, Apply(cfg, s, step)) && Framed(s, step, Apply(cfg, s, step))
  {
    match step
    case Abort(p) => AbortKeeps(cfg, s, p);
  }

  lemma PspStepKeeps(cfg: Config, s: State, step: Step)
    requires Inv(cfg, s)
    requires step.PspCharges? || step.PspDeclines?
    ensures Inv(cfg, Apply(cfg, s, step)) && Framed(s, step, Apply(cfg, s, step))
  {
    match step
    case PspCharges(p) => PspDecidesKeeps(cfg, s, p, Charged);
    case PspDeclines(p, code) => PspDecidesKeeps(cfg, s, p, Declined(code));
  }

  lemma EndpointStepKeeps(cfg: Config, s: State, step: Step)
    requires Inv(cfg, s)
    requires step.CreateEndpoint? || step.DeactivateEndpoint?
    ensures Inv(cfg, Apply(cfg, s, step)) && Framed(s, step, Apply(cfg, s, step))
  {
    match step
    case CreateEndpoint(e, business) => EndpointsKeep(cfg, s, DoCreateEndpoint(s, e, business).endpoints);
    case DeactivateEndpoint(e, business) => EndpointsKeep(cfg, s, DoDeactivateEndpoint(s, e, business).endpoints);
  }

  lemma StepKeeps(cfg: Config, s: State, step: Step)
    requires Inv(cfg, s)
    ensures Inv(cfg, Apply(cfg, s, step)) && Framed(s, step, Apply(cfg, s, step))
  {
    match step
    case StartPay(_, _) | CacheLookup(_) | LockInvoice(_) => LookupStepKeeps(cfg, s, step);
    case InsertAttempt(_, _) | RefetchWinner(_) => InsertStepKeeps(cfg, s, step);
    case CommitReservation(p) => ReservationStepKeeps(cfg, s, p);
    case SendCharge(p) => SendStepKeeps(cfg, s, p);
    case ReplyArrives(_, _) | ReplyLost(_, _) => ReplyStepKeeps(cfg, s, step);
    case FlushOutcome(p) => FlushStepKeeps(cfg, s, p);
    case RelockInvoice(p, stale) => RelockStepKeeps(cfg, s, p, stale);
    case EnqueueOutcome(p) => EnqueueStepKeeps(cfg, s, p);
    case CommitOutcome(p) => OutcomeStepKeeps(cfg, s, p);
    case RefreshAttempt(p) => RefreshStepKeeps(cfg, s, p);
    case StartMove(_, _, _, _) | ReadMove(_) => ReadStepKeeps(cfg, s, step);
    case WriteMove(_) | CommitMove(_) => MoveStepKeeps(cfg, s, step);
    case StartCreate(_, _, _, _) | EnqueueCreate(_) => CreateStepKeeps(cfg, s, step);
    case CommitCreate(p) => CommitCreateStepKeeps(cfg, s, p);
    case Abort(_) => AbortStepKeeps(cfg, s, step);
    case PspCharges(_) | PspDeclines(_, _) => PspStepKeeps(cfg, s, step);
    case CreateEndpoint(_, _) | DeactivateEndpoint(_, _) => EndpointStepKeeps(cfg, s, step);
  }

  /** What a step can do to one request: nothing, unless it is the request's own step and it was still running. */
  lemma RequestStep(cfg: Config, s: State, step: Step, q: Pid)
    requires Inv(cfg, s)
    ensures q in s.procs ==> q in Apply(cfg, s, step).procs && SameRequest(s.procs[q], Apply(cfg, s, step).procs[q])
    ensures q in s.procs && (Finished(s.procs[q]) || Actor(step) != Some(q)) ==>
              Apply(cfg, s, step).procs[q] == s.procs[q]
    ensures IsPay(s, q) && Ended(s.procs[q].at) ==> Ended(Apply(cfg, s, step).procs[q].at)
    ensures q in Apply(cfg, s, step).procs && q !in s.procs ==> Actor(step) == Some(q)
    ensures q in Apply(cfg, s, step).procs && !(q in s.procs && Apply(cfg, s, step).procs[q] == s.procs[q]) ==>
              Reports(Apply(cfg, s, step).attempts, Apply(cfg, s, step).procs[q]) &&
                Buffers(s, q, Apply(cfg, s, step).procs[q])
  {
    StepKeeps(cfg, s, step);
  }

  lemma StepGrows(cfg: Config, s: State, step: Step)
    requires Inv(cfg, s)
    ensures Grows(TablesOf(s), TablesOf(Apply(cfg, s, step)))
    ensures !WritesTables(step) ==> Quiet(s, Apply(cfg, s, step))
  {
    StepKeeps(cfg, s, step);
  }

  lemma InitOk(cfg: Config)
    ensures Inv(cfg, EMPTY)
  {
    assert AllClauses(cfg, EMPTY);
    InvMeans(cfg, EMPTY);
  }

  lemma {:induction false} RunKeeps(cfg: Config, s: State, steps: seq<Step>)
    requires Inv(cfg, s)
    ensures Inv(cfg, Run(cfg, s, steps))
    decreases |steps|
  {
    if steps != [] {
      RunKeeps(cfg, s, steps[..|steps| - 1]);
      StepKeeps(cfg, Run(cfg, s, steps[..|steps| - 1]), steps[|steps| - 1]);
    }
  }

  lemma Reachable(cfg: Config, steps: seq<Step>)
    ensures Inv(cfg, Run(cfg, EMPTY, steps))
  {
    InitOk(cfg);
    RunKeeps(cfg, EMPTY, steps);
  }

  lemma ReachedInv(cfg: Config, steps: seq<Step>, s: State)
    requires Reaches(cfg, EMPTY, steps, s)
    ensures Inv(cfg, s)
  {
    Reachable(cfg, steps);
    assert Run(cfg, EMPTY, steps) == s;
  }
}
