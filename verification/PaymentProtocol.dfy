/** The two-commit payment protocol as a transition system.

    The state is what every session can see: the committed tables, the row locks
    on invoices, the program counter and uncommitted writes of each request in
    flight, and (as an outside party) the payment provider's ledger. One step is
    one statement of one request, or one move of the provider. A step that is not
    possible in a state (the request is elsewhere, or it waits for a lock) leaves
    the state as it is, so every sequence of steps is a schedule. */
module PaymentProtocol {
  import opened InvoiceStates
  import opened Options
  import opened FailureCodes

  /** Identity of a request. A row that a request inserts carries the request's
      identity as its primary key, in place of a random UUID. */
  type Pid = nat
  type BusinessId = nat
  type EndpointId = nat

  /******* Rows *******/

  datatype LineItem = LineItem(quantity: int, unitAmountCents: int)
  datatype Invoice = Invoice(business: BusinessId, items: seq<LineItem>, totalCents: int, state: InvoiceState)

  datatype PaymentStatus = PENDING | SUCCEEDED | FAILED
  datatype Attempt = Attempt(invoice: Pid, key: string, requestHash: string, status: PaymentStatus, amountCents: int,
                             cardToken: string, pspRef: Option<string>, failureCode: Option<string>)

  datatype Endpoint = Endpoint(business: BusinessId, isActive: bool)

  /** A domain event happens at most once: an invoice is created once and an attempt is resolved once. */
  datatype Event = InvoiceCreated(invoice: Pid) | InvoicePaid(attempt: Pid) | PaymentFailed(attempt: Pid)
  datatype Payload =
    | CreatedPayload(invoice: Pid, totalCents: int)
    | PaidPayload(invoice: Pid, amountCents: int, pspRef: string)
    | FailedPayload(invoice: Pid, failureCode: string, amountCents: int)
  datatype Delivery = Delivery(event: Event, endpoint: EndpointId, payload: Payload)

  /** The sum of quantity * unit amount, added up line by line. */
  function LineTotal(items: seq<LineItem>): int {
    if items == [] then 0
    else LineTotal(items[..|items| - 1]) + items[|items| - 1].quantity * items[|items| - 1].unitAmountCents
  }

  const INT4_LIMIT: int := 0x8000_0000
  const INT8_LIMIT: int := 0x8000_0000_0000_0000

  predicate StorableLine(item: LineItem) {
    && 0 < item.quantity < INT4_LIMIT
    && 0 <= item.unitAmountCents < INT8_LIMIT
    && item.quantity * item.unitAmountCents < INT8_LIMIT
  }

  /** What the column types and CHECK constraints of invoices and their lines accept. */
  predicate Storable(items: seq<LineItem>) {
    && (forall k :: 0 <= k < |items| ==> StorableLine(items[k]))
    && 0 <= LineTotal(items) < INT8_LIMIT
  }

  /******* Payment provider *******/

  datatype Reply = Approved(pspRef: string) | Refused(code: string) | Lost(error: PspError)

  /** What the provider did with the charge request of one call. A timeout says nothing about it. */
  datatype ChargeStage = Undecided | Charged | Declined(code: string)
  datatype Charge = Charge(amountCents: int, stage: ChargeStage)

  /******* Requests in flight *******/

  datatype Order = Order(business: BusinessId, invoice: Pid, cardToken: string, key: string)

  datatype PayResult =
    | Returned(attempt: Pid, status: PaymentStatus, isCached: bool)
    | NotFoundError
    | InvalidStateTransition
    | IdempotencyConflict
    | Died

  /** Program counter of process_payment, with the values its transaction holds. */
  datatype PayPc =
    | Started                                          // before the idempotency lookup
    | CacheMissed                                      // no row for the key
    | LockedOpen(totalCents: int)                      // invoice row locked, read as OPEN
    | Inserted(amountCents: int)                       // pending row inserted, not committed
    | Conflicted                                       // insert refused, rolled back
    | Reserved                                         // first commit done
    | Sent                                             // provider called
    | Replied(reply: Reply)
    | Flushed(reply: Reply)                            // attempt row updated, not committed
    | Relocked(reply: Reply)                           // invoice row locked again
    | Enqueued(reply: Reply, outbox: multiset<Delivery>) // outbox rows added, not committed
    | Refreshing                                       // second commit done
    | PayDone(result: PayResult)

  datatype MoveResult = MoveApplied | MoveNotFound | MoveRefused | MoveDied
  datatype MovePc =
    | MoveStarted
    | MoveRead(seen: InvoiceState)
    | MoveWritten(seen: InvoiceState)                  // row updated (so locked), not committed
    | MoveDone(moved: MoveResult)

  datatype CreateResult = Created | CustomerNotFound | CreateRefused | CreateDied
  datatype CreatePc =
    | Building
    | CreateEnqueued(outbox: multiset<Delivery>)       // rows added, not committed
    | CreateDone(created: CreateResult)

  datatype Proc =
    | Pay(order: Order, at: PayPc)
    | Move(business: BusinessId, invoice: Pid, target: InvoiceState, mv: MovePc)
    | Create(business: BusinessId, items: seq<LineItem>, cr: CreatePc)

  /******* State *******/

  datatype State = State(
    invoices: map<Pid, Invoice>,
    attempts: map<Pid, Attempt>,
    deliveries: multiset<Delivery>,
    endpoints: map<EndpointId, Endpoint>,
    locks: map<Pid, Pid>,                // invoice to the request holding its row lock
    procs: map<Pid, Proc>,
    psp: map<Pid, Charge>)               // call to the charge it asked for

  /** How the deployment behaves where the code alone does not decide it.
      hash:           the request hash.
      freshReread:    the second locking read of the invoice refreshes the session's copy.
      atomicFinalize: a finalize writes the row in the state it was read in.
      atomicClose:    the same for void and uncollectible. */
  datatype Config = Config(hash: string -> string, freshReread: bool, atomicFinalize: bool, atomicClose: bool)

  predicate Atomic(cfg: Config, target: InvoiceState) {
    if target == OPEN then cfg.atomicFinalize else cfg.atomicClose
  }

  const EMPTY: State := State(map[], map[], multiset{}, map[], map[], map[], map[])

  /** Which violated unique constraint the database names. */
  datatype Report = PendingIndex | IdempotencyIndex

  datatype Step =
    | StartPay(p: Pid, order: Order)
    | CacheLookup(p: Pid)
    | LockInvoice(p: Pid)
    | InsertAttempt(p: Pid, report: Report)
    | RefetchWinner(p: Pid)
    | CommitReservation(p: Pid)
    | SendCharge(p: Pid)
    | ReplyArrives(p: Pid, pspRef: string)
    | ReplyLost(p: Pid, error: PspError)
    | FlushOutcome(p: Pid)
    | RelockInvoice(p: Pid, stale: bool)
    | EnqueueOutcome(p: Pid)
    | CommitOutcome(p: Pid)
    | RefreshAttempt(p: Pid)
    | StartMove(p: Pid, business: BusinessId, invoice: Pid, target: InvoiceState)
    | ReadMove(p: Pid)
    | WriteMove(p: Pid)
    | CommitMove(p: Pid)
    | StartCreate(p: Pid, business: BusinessId, customerExists: bool, items: seq<LineItem>)
    | EnqueueCreate(p: Pid)
    | CommitCreate(p: Pid)
    | Abort(p: Pid)
    | PspCharges(p: Pid)
    | PspDeclines(p: Pid, code: string)
    | CreateEndpoint(endpoint: EndpointId, business: BusinessId)
    | DeactivateEndpoint(endpoint: EndpointId, business: BusinessId)

  /******* Queries *******/

  ghost predicate IsPay(s: State, p: Pid) { p in s.procs && s.procs[p].Pay? }
  ghost predicate IsMove(s: State, p: Pid) { p in s.procs && s.procs[p].Move? }
  ghost predicate IsCreate(s: State, p: Pid) { p in s.procs && s.procs[p].Create? }

  ghost predicate PendingOn(s: State, invoice: Pid) {
    exists a :: a in s.attempts && s.attempts[a].invoice == invoice && s.attempts[a].status == PENDING
  }

  ghost predicate Matches(s: State, a: Pid, o: Order) {
    a in s.attempts && s.attempts[a].invoice == o.invoice && s.attempts[a].key == o.key
  }

  ghost predicate KeyTaken(s: State, o: Order) {
    exists a :: Matches(s, a, o)
  }

  /** The row of (invoice, key), if there is one. */
  ghost function FindAttempt(s: State, o: Order): (row: Option<Pid>)
    ensures row.None? <==> !KeyTaken(s, o)
    ensures row.Some? ==> Matches(s, row.value, o)
  {
    if KeyTaken(s, o) then var a :| Matches(s, a, o); Some(a) else None
  }

  /** The request has changed its attempt row and not committed yet. */
  predicate Uncommitted(pc: PayPc) { pc.Flushed? || pc.Relocked? || pc.Enqueued? }

  /** The call will write no table any more. */
  predicate Ended(pc: PayPc) { pc.Refreshing? || pc.PayDone? }

  /** An index entry of this invoice is being changed by an open transaction, so an insert waits. */
  ghost predicate Contended(s: State, invoice: Pid) {
    exists a :: a in s.attempts && s.attempts[a].invoice == invoice && IsPay(s, a) && Uncommitted(s.procs[a].at)
  }

  /** One outbox row per active endpoint of the business. */
  ghost function FanOut(s: State, business: BusinessId, event: Event, payload: Payload): multiset<Delivery> {
    multiset(set e | e in s.endpoints && s.endpoints[e] == Endpoint(business, true) :: Delivery(event, e, payload))
  }

  /******* Building blocks *******/

  ghost function SetPay(s: State, p: Pid, pc: PayPc): State
    requires IsPay(s, p)
  {
    s.(procs := s.procs[p := s.procs[p].(at := pc)])
  }

  ghost function Finish(s: State, p: Pid, result: PayResult): State
    requires IsPay(s, p)
  {
    SetPay(s, p, PayDone(result))
  }

  ghost function SetMove(s: State, p: Pid, pc: MovePc): State
    requires IsMove(s, p)
  {
    s.(procs := s.procs[p := s.procs[p].(mv := pc)])
  }

  ghost function SetCreate(s: State, p: Pid, pc: CreatePc): State
    requires IsCreate(s, p)
  {
    s.(procs := s.procs[p := s.procs[p].(cr := pc)])
  }

  ghost function Unlock(s: State, invoice: Pid): State {
    s.(locks := s.locks - {invoice})
  }

  /** The request holds the row lock of its invoice. */
  predicate Guarded(pr: Proc) {
    match pr
    case Pay(_, pc) => pc.LockedOpen? || pc.Inserted? || pc.Relocked? || (pc.Enqueued? && pc.reply.Approved?)
    case Move(_, _, _, mv) => mv.MoveWritten?
    case Create(_, _, _) => false
  }

  function InvoiceOf(pr: Proc): Pid
    requires !pr.Create?
  {
    match pr
    case Pay(o, _) => o.invoice
    case Move(_, invoice, _, _) => invoice
  }

  /******* process_payment *******/

  ghost function DoStartPay(s: State, p: Pid, order: Order): State {
    if p in s.procs then s else s.(procs := s.procs[p := Pay(order, Started)])
  }

  ghost function DoCacheLookup(cfg: Config, s: State, p: Pid): State {
    if !(IsPay(s, p) && s.procs[p].at.Started?) then s else
    var o := s.procs[p].order;
    match FindAttempt(s, o)
    case None => SetPay(s, p, CacheMissed)
    case Some(a) =>
      if s.attempts[a].requestHash != cfg.hash(o.cardToken) then Finish(s, p, IdempotencyConflict)
      else Finish(s, p, Returned(a, s.attempts[a].status, true))
  }

  ghost function DoLockInvoice(s: State, p: Pid): State {
    if !(IsPay(s, p) && s.procs[p].at.CacheMissed?) then s else
    var o := s.procs[p].order;
    if o.invoice !in s.invoices || s.invoices[o.invoice].business != o.business then Finish(s, p, NotFoundError)
    else if o.invoice in s.locks then s
    else if !Allowed(s.invoices[o.invoice].state, PAID) then Finish(s, p, InvalidStateTransition)
    else SetPay(s, p, LockedOpen(s.invoices[o.invoice].totalCents)).(locks := s.locks[o.invoice := p])
  }

  ghost function DoInsertAttempt(s: State, p: Pid, report: Report): State {
    if !(IsPay(s, p) && s.procs[p].at.LockedOpen?) then s else
    var o, amount := s.procs[p].order, s.procs[p].at.totalCents;
    if amount <= 0 then Unlock(SetPay(s, p, Conflicted), o.invoice)
    else if Contended(s, o.invoice) then s
    else if !PendingOn(s, o.invoice) && !KeyTaken(s, o) then SetPay(s, p, Inserted(amount))
    else if report.PendingIndex? && PendingOn(s, o.invoice) then Unlock(Finish(s, p, InvalidStateTransition), o.invoice)
    else if report.IdempotencyIndex? && KeyTaken(s, o) then Unlock(SetPay(s, p, Conflicted), o.invoice)
    else s
  }

  ghost function DoRefetchWinner(cfg: Config, s: State, p: Pid): State {
    if !(IsPay(s, p) && s.procs[p].at.Conflicted?) then s else
    var o := s.procs[p].order;
    match FindAttempt(s, o)
    case None => Finish(s, p, IdempotencyConflict)
    case Some(a) =>
      if s.attempts[a].requestHash == cfg.hash(o.cardToken) then Finish(s, p, Returned(a, s.attempts[a].status, true))
      else Finish(s, p, IdempotencyConflict)
  }

  function NewAttempt(cfg: Config, o: Order, amountCents: int): Attempt {
    Attempt(o.invoice, o.key, cfg.hash(o.cardToken), PENDING, amountCents, o.cardToken, None, None)
  }

  ghost function DoCommitReservation(cfg: Config, s: State, p: Pid): State {
    if !(IsPay(s, p) && s.procs[p].at.Inserted?) then s else
    var o, amount := s.procs[p].order, s.procs[p].at.amountCents;
    Unlock(SetPay(s, p, Reserved).(attempts := s.attempts[p := NewAttempt(cfg, o, amount)]), o.invoice)
  }

  ghost function DoSendCharge(s: State, p: Pid): State {
    if !(IsPay(s, p) && s.procs[p].at.Reserved? && p in s.attempts) then s else
    SetPay(s, p, Sent).(psp := s.psp[p := Charge(s.attempts[p].amountCents, Undecided)])
  }

  ghost function DoReplyArrives(s: State, p: Pid, pspRef: string): State {
    if !(IsPay(s, p) && s.procs[p].at.Sent? && p in s.psp) then s else
    match s.psp[p].stage
    case Undecided => s
    case Charged => SetPay(s, p, Replied(Approved(pspRef)))
    case Declined(code) => SetPay(s, p, Replied(Refused(code)))
  }

  ghost function DoReplyLost(s: State, p: Pid, error: PspError): State {
    if !(IsPay(s, p) && s.procs[p].at.Sent?) then s else SetPay(s, p, Replied(Lost(error)))
  }

  ghost function DoFlushOutcome(s: State, p: Pid): State {
    if !(IsPay(s, p) && s.procs[p].at.Replied? && !s.procs[p].at.reply.Lost?) then s else
    SetPay(s, p, Flushed(s.procs[p].at.reply))
  }

  ghost function DoRelockInvoice(cfg: Config, s: State, p: Pid, stale: bool): State {
    if !(IsPay(s, p) && s.procs[p].at.Flushed? && s.procs[p].at.reply.Approved?) then s else
    var i := s.procs[p].order.invoice;
    if i !in s.invoices || i in s.locks || (stale && cfg.freshReread) then s else
    var seen := if stale then OPEN else s.invoices[i].state;   // a stale copy is the one read before the first commit
    if !Allowed(seen, PAID) then Finish(s, p, InvalidStateTransition)
    else SetPay(s, p, Relocked(s.procs[p].at.reply)).(locks := s.locks[i := p])
  }

  function OutcomeEvent(p: Pid, reply: Reply): Event {
    if reply.Approved? then InvoicePaid(p) else PaymentFailed(p)
  }

  function OutcomePayload(o: Order, amountCents: int, reply: Reply): Payload
    requires !reply.Lost?
  {
    match reply
    case Approved(ref) => PaidPayload(o.invoice, amountCents, ref)
    case Refused(code) => FailedPayload(o.invoice, code, amountCents)
  }

  ghost function DoEnqueueOutcome(s: State, p: Pid): State {
    if !(IsPay(s, p) && p in s.attempts) then s else
    var o, pc := s.procs[p].order, s.procs[p].at;
    if (pc.Relocked? && pc.reply.Approved?) || (pc.Flushed? && pc.reply.Refused?) then
      SetPay(s, p, Enqueued(pc.reply, FanOut(s, o.business, OutcomeEvent(p, pc.reply),
                                             OutcomePayload(o, s.attempts[p].amountCents, pc.reply))))
    else s
  }

  ghost predicate AtLost(s: State, p: Pid) {
    IsPay(s, p) && p in s.attempts && s.procs[p].at.Replied? && s.procs[p].at.reply.Lost?
  }

  ghost predicate AtRefused(s: State, p: Pid) {
    IsPay(s, p) && p in s.attempts && s.procs[p].at.Enqueued? && s.procs[p].at.reply.Refused?
  }

  ghost predicate AtApproved(s: State, p: Pid) {
    && IsPay(s, p) && p in s.attempts && s.procs[p].at.Enqueued? && s.procs[p].at.reply.Approved?
    && s.procs[p].order.invoice in s.invoices
  }

  ghost function CommitLost(s: State, p: Pid): State
    requires AtLost(s, p)
  {
    SetPay(s, p, Refreshing).(
      attempts := s.attempts[p := s.attempts[p].(failureCode := Some(FailureCode(s.procs[p].at.reply.error)))])
  }

  ghost function CommitRefused(s: State, p: Pid): State
    requires AtRefused(s, p)
  {
    SetPay(s, p, Refreshing).(
      attempts := s.attempts[p := s.attempts[p].(status := FAILED, failureCode := Some(s.procs[p].at.reply.code))],
      deliveries := s.deliveries + s.procs[p].at.outbox)
  }

  ghost function CommitApproved(s: State, p: Pid): State
    requires AtApproved(s, p)
  {
    var i := s.procs[p].order.invoice;
    Unlock(SetPay(s, p, Refreshing).(
      attempts := s.attempts[p := s.attempts[p].(status := SUCCEEDED, pspRef := Some(s.procs[p].at.reply.pspRef))],
      invoices := s.invoices[i := s.invoices[i].(state := PAID)],
      deliveries := s.deliveries + s.procs[p].at.outbox), i)
  }

  ghost function DoCommitOutcome(s: State, p: Pid): State {
    if AtLost(s, p) then CommitLost(s, p)
    else if AtRefused(s, p) then CommitRefused(s, p)
    else if AtApproved(s, p) then CommitApproved(s, p)
    else s
  }

  /** The row is read again after the commit, and returned. */
  ghost function DoRefreshAttempt(s: State, p: Pid): State {
    if !(IsPay(s, p) && s.procs[p].at.Refreshing? && p in s.attempts) then s
    else Finish(s, p, Returned(p, s.attempts[p].status, false))
  }

  /******* transition_invoice_state *******/

  ghost function DoStartMove(s: State, p: Pid, business: BusinessId, invoice: Pid, target: InvoiceState): State {
    if p in s.procs || target !in {OPEN, VOID, UNCOLLECTIBLE} then s
    else s.(procs := s.procs[p := Move(business, invoice, target, MoveStarted)])
  }

  ghost function DoReadMove(s: State, p: Pid): State {
    if !(IsMove(s, p) && s.procs[p].mv.MoveStarted?) then s else
    var m := s.procs[p];
    if m.invoice !in s.invoices || s.invoices[m.invoice].business != m.business then
      SetMove(s, p, MoveDone(MoveNotFound))
    else if !Allowed(s.invoices[m.invoice].state, m.target) then SetMove(s, p, MoveDone(MoveRefused))
    else SetMove(s, p, MoveRead(s.invoices[m.invoice].state))
  }

  ghost function DoWriteMove(cfg: Config, s: State, p: Pid): State {
    if !(IsMove(s, p) && s.procs[p].mv.MoveRead?) then s else
    var m := s.procs[p];
    if m.invoice !in s.invoices || m.invoice in s.locks then s
    else if Atomic(cfg, m.target) && s.invoices[m.invoice].state != m.mv.seen then s
    else SetMove(s, p, MoveWritten(m.mv.seen)).(locks := s.locks[m.invoice := p])
  }

  ghost function DoCommitMove(s: State, p: Pid): State {
    if !(IsMove(s, p) && s.procs[p].mv.MoveWritten?) then s else
    var m := s.procs[p];
    if m.invoice !in s.invoices then s
    else Unlock(SetMove(s, p, MoveDone(MoveApplied)).(
                  invoices := s.invoices[m.invoice := s.invoices[m.invoice].(state := m.target)]), m.invoice)
  }

  /******* create_invoice *******/

  ghost function DoStartCreate(s: State, p: Pid, business: BusinessId, customerExists: bool,
                               items: seq<LineItem>): State
  {
    if p in s.procs then s
    else
      var cr := if customerExists then Building else CreateDone(CustomerNotFound);
      s.(procs := s.procs[p := Create(business, items, cr)])
  }

  ghost function DoEnqueueCreate(s: State, p: Pid): State {
    if !(IsCreate(s, p) && s.procs[p].cr.Building?) then s else
    var c := s.procs[p];
    if !Storable(c.items) then SetCreate(s, p, CreateDone(CreateRefused))
    else
      SetCreate(s, p, CreateEnqueued(FanOut(s, c.business, InvoiceCreated(p), CreatedPayload(p, LineTotal(c.items)))))
  }

  ghost function DoCommitCreate(s: State, p: Pid): State {
    if !(IsCreate(s, p) && s.procs[p].cr.CreateEnqueued?) then s else
    var c := s.procs[p];
    SetCreate(s, p, CreateDone(Created)).(
      invoices := s.invoices[p := Invoice(c.business, c.items, LineTotal(c.items), DRAFT)],
      deliveries := s.deliveries + c.cr.outbox)
  }

  /******* Crashes, the provider, endpoints *******/

  predicate Finished(pr: Proc) {
    match pr
    case Pay(_, pc) => pc.PayDone?
    case Move(_, _, _, mv) => mv.MoveDone?
    case Create(_, _, cr) => cr.CreateDone?
  }

  function Killed(pr: Proc): Proc {
    match pr
    case Pay(_, _) => pr.(at := PayDone(Died))
    case Move(_, _, _, _) => pr.(mv := MoveDone(MoveDied))
    case Create(_, _, _) => pr.(cr := CreateDone(CreateDied))
  }

  /** A crash, a cancelled request or a deadlock victim: the open transaction is rolled back. */
  ghost function DoAbort(s: State, p: Pid): State {
    if p !in s.procs || Finished(s.procs[p]) then s else
    var s' := s.(procs := s.procs[p := Killed(s.procs[p])]);
    if Guarded(s.procs[p]) then Unlock(s', InvoiceOf(s.procs[p])) else s'
  }

  ghost function DoPspDecides(s: State, p: Pid, stage: ChargeStage): State {
    if p !in s.psp || s.psp[p].stage != Undecided then s
    else s.(psp := s.psp[p := s.psp[p].(stage := stage)])
  }

  ghost function DoCreateEndpoint(s: State, e: EndpointId, business: BusinessId): State {
    if e in s.endpoints then s else s.(endpoints := s.endpoints[e := Endpoint(business, true)])
  }

  ghost function DoDeactivateEndpoint(s: State, e: EndpointId, business: BusinessId): State {
    if e !in s.endpoints || s.endpoints[e].business != business then s
    else s.(endpoints := s.endpoints[e := Endpoint(business, false)])
  }

  /******* Runs *******/

  ghost function Apply(cfg: Config, s: State, step: Step): State {
    match step
    case StartPay(p, order) => DoStartPay(s, p, order)
    case CacheLookup(p) => DoCacheLookup(cfg, s, p)
    case LockInvoice(p) => DoLockInvoice(s, p)
    case InsertAttempt(p, report) => DoInsertAttempt(s, p, report)
    case RefetchWinner(p) => DoRefetchWinner(cfg, s, p)
    case CommitReservation(p) => DoCommitReservation(cfg, s, p)
    case SendCharge(p) => DoSendCharge(s, p)
    case ReplyArrives(p, pspRef) => DoReplyArrives(s, p, pspRef)
    case ReplyLost(p, error) => DoReplyLost(s, p, error)
    case FlushOutcome(p) => DoFlushOutcome(s, p)
    case RelockInvoice(p, stale) => DoRelockInvoice(cfg, s, p, stale)
    case EnqueueOutcome(p) => DoEnqueueOutcome(s, p)
    case CommitOutcome(p) => DoCommitOutcome(s, p)
    case RefreshAttempt(p) => DoRefreshAttempt(s, p)
    case StartMove(p, business, invoice, target) => DoStartMove(s, p, business, invoice, target)
    case ReadMove(p) => DoReadMove(s, p)
    case WriteMove(p) => DoWriteMove(cfg, s, p)
    case CommitMove(p) => DoCommitMove(s, p)
    case StartCreate(p, business, customerExists, items) => DoStartCreate(s, p, business, customerExists, items)
    case EnqueueCreate(p) => DoEnqueueCreate(s, p)
    case CommitCreate(p) => DoCommitCreate(s, p)
    case Abort(p) => DoAbort(s, p)
    case PspCharges(p) => DoPspDecides(s, p, Charged)
    case PspDeclines(p, code) => DoPspDecides(s, p, Declined(code))
    case CreateEndpoint(e, business) => DoCreateEndpoint(s, e, business)
    case DeactivateEndpoint(e, business) => DoDeactivateEndpoint(s, e, business)
  }

  /** The state after a schedule. */
  ghost function Run(cfg: Config, s: State, steps: seq<Step>): State {
    if steps == [] then s else Apply(cfg, Run(cfg, s, steps[..|steps| - 1]), steps[|steps| - 1])
  }

  /** s' is the state after the schedule. (Quantified, so that a proof unfolds the run only where it asks for it.) */
  ghost predicate Reaches(cfg: Config, s: State, steps: seq<Step>, s': State) {
    forall t :: t == steps ==> Run(cfg, s, t) == s'
  }

  lemma {:induction false} RunConcat(cfg: Config, s: State, first: seq<Step>, second: seq<Step>)
    ensures Run(cfg, s, first + second) == Run(cfg, Run(cfg, s, first), second)
    decreases |second|
  {
    if second == [] {
      assert first + second == first;
    } else {
      var n := |second| - 1;
      assert (first + second)[..|first + second| - 1] == first + second[..n];
      RunConcat(cfg, s, first, second[..n]);
    }
  }
}
