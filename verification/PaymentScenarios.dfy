/** What an uncontended payment does, and, built from it, the schedules that show
    which assumption each safety theorem needs. */
module PaymentScenarios {
  import opened InvoiceStates
  import opened Options
  import opened PaymentProtocol
  import opened StatementCases

  lemma RunFirst(cfg: Config, s: State, step: Step, rest: seq<Step>)
    ensures Run(cfg, s, [step] + rest) == Run(cfg, Apply(cfg, s, step), rest)
  {
    RunConcat(cfg, s, [step], rest);
    assert Run(cfg, s, [step]) == Apply(cfg, Run(cfg, s, []), step) by { assert [step][..0] == []; }
  }

  /** An open invoice of this business that nobody holds, with nothing in the way of a new attempt. */
  ghost predicate Payable(s: State, p: Pid, o: Order) {
    && p !in s.procs
    && o.invoice in s.invoices && o.invoice !in s.locks
    && s.invoices[o.invoice].business == o.business
    && s.invoices[o.invoice].state == OPEN
    && s.invoices[o.invoice].totalCents > 0
    && !PendingOn(s, o.invoice) && !KeyTaken(s, o) && !Contended(s, o.invoice)
  }

  ghost function ReserveSteps(p: Pid, o: Order): seq<Step> {
    [StartPay(p, o), CacheLookup(p), LockInvoice(p), InsertAttempt(p, PendingIndex), CommitReservation(p)]
  }

  ghost function Reserving(cfg: Config, s: State, p: Pid, o: Order): State
    requires o.invoice in s.invoices
  {
    s.(procs := s.procs[p := Pay(o, Reserved)],
       attempts := s.attempts[p := NewAttempt(cfg, o, s.invoices[o.invoice].totalCents)])
  }

  ghost function At(s: State, p: Pid, o: Order, pc: PayPc): State {
    s.(procs := s.procs[p := Pay(o, pc)])
  }

  lemma AtSame(s: State, p: Pid, o: Order, pc: PayPc, locks: map<Pid, Pid>)
    requires p !in s.attempts
    ensures var s' := At(s, p, o, pc).(locks := locks);
            && (PendingOn(s', o.invoice) <==> PendingOn(s, o.invoice))
            && (KeyTaken(s', o) <==> KeyTaken(s, o))
            && (Contended(s', o.invoice) <==> Contended(s, o.invoice))
  {
    var s' := At(s, p, o, pc).(locks := locks);
    forall a ensures Matches(s', a, o) <==> Matches(s, a, o) {}
  }

  lemma LookupMisses(cfg: Config, s: State, p: Pid, o: Order)
    requires p !in s.attempts && !KeyTaken(s, o)
    ensures Apply(cfg, At(s, p, o, Started), CacheLookup(p)) == At(s, p, o, CacheMissed)
  {
    AtSame(s, p, o, Started, s.locks);
  }

  lemma LockTaken(cfg: Config, s: State, p: Pid, o: Order)
    requires o.invoice in s.invoices && o.invoice !in s.locks && s.invoices[o.invoice].business == o.business
    requires s.invoices[o.invoice].state == OPEN
    ensures Apply(cfg, At(s, p, o, CacheMissed), LockInvoice(p)) ==
            At(s, p, o, LockedOpen(s.invoices[o.invoice].totalCents)).(locks := s.locks[o.invoice := p])
  {}

  lemma InsertPasses(cfg: Config, s: State, p: Pid, o: Order, locks: map<Pid, Pid>)
    requires Payable(s, p, o) && p !in s.attempts
    ensures Apply(cfg, At(s, p, o, LockedOpen(s.invoices[o.invoice].totalCents)).(locks := locks),
                  InsertAttempt(p, PendingIndex)) ==
            At(s, p, o, Inserted(s.invoices[o.invoice].totalCents)).(locks := locks)
  {
    AtSame(s, p, o, LockedOpen(s.invoices[o.invoice].totalCents), locks);
  }

  lemma ReservationCommits(cfg: Config, s: State, p: Pid, o: Order)
    requires Payable(s, p, o)
    ensures Apply(cfg, At(s, p, o, Inserted(s.invoices[o.invoice].totalCents)).(locks := s.locks[o.invoice := p]),
                  CommitReservation(p)) ==
            Reserving(cfg, s, p, o)
  {
    assert s.locks[o.invoice := p] - {o.invoice} == s.locks;
  }

  /** The first commit makes the reservation. */
  lemma ReserveRuns(cfg: Config, s: State, p: Pid, o: Order)
    requires Payable(s, p, o) && p !in s.attempts
    ensures Run(cfg, s, ReserveSteps(p, o)) == Reserving(cfg, s, p, o)
  {
    var total := s.invoices[o.invoice].totalCents;
    var held := s.locks[o.invoice := p];
    var r4: seq<Step> := [CommitReservation(p)];
    var r3 := [InsertAttempt(p, PendingIndex)] + r4;
    var r2 := [LockInvoice(p)] + r3;
    var r1 := [CacheLookup(p)] + r2;
    assert ReserveSteps(p, o) == [StartPay(p, o)] + r1;
    RunFirst(cfg, s, StartPay(p, o), r1);
    RunFirst(cfg, At(s, p, o, Started), CacheLookup(p), r2);
    LookupMisses(cfg, s, p, o);
    RunFirst(cfg, At(s, p, o, CacheMissed), LockInvoice(p), r3);
    LockTaken(cfg, s, p, o);
    RunFirst(cfg, At(s, p, o, LockedOpen(total)).(locks := held), InsertAttempt(p, PendingIndex), r4);
    InsertPasses(cfg, s, p, o, held);
    RunOne(cfg, At(s, p, o, Inserted(total)).(locks := held), CommitReservation(p));
    ReservationCommits(cfg, s, p, o);
  }

  lemma RunOne(cfg: Config, s: State, step: Step)
    ensures Run(cfg, s, [step]) == Apply(cfg, s, step)
  {
    assert [step][..0] == [];
  }

  /******* From the reservation to the second commit *******/

  ghost predicate HasReserved(r: State, p: Pid, o: Order) {
    && p in r.procs && r.procs[p] == Pay(o, Reserved) && p in r.attempts
    && o.invoice in r.invoices && o.invoice !in r.locks
  }

  ghost function ChargeSteps(p: Pid, ref: string): seq<Step> {
    [SendCharge(p), PspCharges(p), ReplyArrives(p, ref), FlushOutcome(p)]
  }

  ghost function Charging(r: State, p: Pid, o: Order, ref: string): State
    requires p in r.attempts
  {
    At(r, p, o, Flushed(Approved(ref))).(psp := r.psp[p := Charge(r.attempts[p].amountCents, Charged)])
  }

  ghost function WithCharge(s: State, p: Pid, amount: int, stage: ChargeStage): State {
    s.(psp := s.psp[p := Charge(amount, stage)])
  }

  lemma Sends(cfg: Config, r: State, p: Pid, o: Order)
    requires HasReserved(r, p, o)
    ensures Apply(cfg, r, SendCharge(p)) == WithCharge(At(r, p, o, Sent), p, r.attempts[p].amountCents, Undecided)
  {}

  lemma ProviderCharges(cfg: Config, r: State, p: Pid, o: Order, amount: int)
    ensures Apply(cfg, WithCharge(At(r, p, o, Sent), p, amount, Undecided), PspCharges(p)) ==
            WithCharge(At(r, p, o, Sent), p, amount, Charged)
  {
    assert r.psp[p := Charge(amount, Undecided)][p := Charge(amount, Charged)] == r.psp[p := Charge(amount, Charged)];
  }

  lemma ReplyComes(cfg: Config, r: State, p: Pid, o: Order, amount: int, ref: string)
    ensures Apply(cfg, WithCharge(At(r, p, o, Sent), p, amount, Charged), ReplyArrives(p, ref)) ==
            WithCharge(At(r, p, o, Replied(Approved(ref))), p, amount, Charged)
  {}

  lemma Flushes(cfg: Config, r: State, p: Pid, o: Order, amount: int, ref: string)
    ensures Apply(cfg, WithCharge(At(r, p, o, Replied(Approved(ref))), p, amount, Charged), FlushOutcome(p)) ==
            WithCharge(At(r, p, o, Flushed(Approved(ref))), p, amount, Charged)
  {}

  lemma ChargeRuns(cfg: Config, r: State, p: Pid, o: Order, ref: string)
    requires HasReserved(r, p, o)
    ensures Run(cfg, r, ChargeSteps(p, ref)) == Charging(r, p, o, ref)
  {
    var amount := r.attempts[p].amountCents;
    var r3: seq<Step> := [FlushOutcome(p)];
    var r2 := [ReplyArrives(p, ref)] + r3;
    var r1 := [PspCharges(p)] + r2;
    assert ChargeSteps(p, ref) == [SendCharge(p)] + r1;
    RunFirst(cfg, r, SendCharge(p), r1);
    Sends(cfg, r, p, o);
    RunFirst(cfg, WithCharge(At(r, p, o, Sent), p, amount, Undecided), PspCharges(p), r2);
    ProviderCharges(cfg, r, p, o, amount);
    RunFirst(cfg, WithCharge(At(r, p, o, Sent), p, amount, Charged), ReplyArrives(p, ref), r3);
    ReplyComes(cfg, r, p, o, amount, ref);
    RunOne(cfg, WithCharge(At(r, p, o, Replied(Approved(ref))), p, amount, Charged), FlushOutcome(p));
    Flushes(cfg, r, p, o, amount, ref);
  }

  ghost function CloseSteps(p: Pid, stale: bool): seq<Step> {
    [RelockInvoice(p, stale), EnqueueOutcome(p), CommitOutcome(p), RefreshAttempt(p)]
  }

  ghost function Paid(f: State, p: Pid, o: Order, ref: string): State
    requires p in f.attempts && o.invoice in f.invoices
  {
    f.(procs := f.procs[p := Pay(o, PayDone(Returned(p, SUCCEEDED, false)))],
       attempts := f.attempts[p := f.attempts[p].(status := SUCCEEDED, pspRef := Some(ref))],
       invoices := f.invoices[o.invoice := f.invoices[o.invoice].(state := PAID)],
       deliveries := f.deliveries + FanOut(f, o.business, InvoicePaid(p),
                                           PaidPayload(o.invoice, f.attempts[p].amountCents, ref)))
  }

  ghost predicate CanClose(cfg: Config, f: State, p: Pid, o: Order, ref: string, stale: bool) {
    && p in f.procs && f.procs[p] == Pay(o, Flushed(Approved(ref))) && p in f.attempts
    && o.invoice in f.invoices && o.invoice !in f.locks
    && (if stale then !cfg.freshReread else f.invoices[o.invoice].state == OPEN)
  }

  lemma RelockPasses(cfg: Config, f: State, p: Pid, o: Order, ref: string, stale: bool)
    requires CanClose(cfg, f, p, o, ref, stale)
    ensures Apply(cfg, f, RelockInvoice(p, stale)) ==
            At(f, p, o, Relocked(Approved(ref))).(locks := f.locks[o.invoice := p])
  {}

  lemma EnqueueFans(cfg: Config, f: State, p: Pid, o: Order, ref: string, locks: map<Pid, Pid>)
    requires p in f.attempts
    ensures var outbox := FanOut(f, o.business, InvoicePaid(p), PaidPayload(o.invoice, f.attempts[p].amountCents, ref));
            Apply(cfg, At(f, p, o, Relocked(Approved(ref))).(locks := locks), EnqueueOutcome(p)) ==
            At(f, p, o, Enqueued(Approved(ref), outbox)).(locks := locks)
  {}

  lemma OutcomeCommits(cfg: Config, f: State, p: Pid, o: Order, ref: string)
    requires p in f.attempts && o.invoice in f.invoices && o.invoice !in f.locks
    ensures var outbox := FanOut(f, o.business, InvoicePaid(p), PaidPayload(o.invoice, f.attempts[p].amountCents, ref));
            Apply(cfg, At(f, p, o, Enqueued(Approved(ref), outbox)).(locks := f.locks[o.invoice := p]),
                  CommitOutcome(p)) ==
            At(Paid(f, p, o, ref), p, o, Refreshing)
  {
    var outbox := FanOut(f, o.business, InvoicePaid(p), PaidPayload(o.invoice, f.attempts[p].amountCents, ref));
    ApprovedCase(At(f, p, o, Enqueued(Approved(ref), outbox)).(locks := f.locks[o.invoice := p]), p);
    assert f.procs[p := Pay(o, Enqueued(Approved(ref), outbox))][p := Pay(o, Refreshing)] ==
      At(Paid(f, p, o, ref), p, o, Refreshing).procs;
    assert f.locks[o.invoice := p] - {o.invoice} == f.locks;
  }

  lemma RefreshReturns(cfg: Config, f: State, p: Pid, o: Order, ref: string)
    requires p in f.attempts && o.invoice in f.invoices
    ensures Apply(cfg, At(Paid(f, p, o, ref), p, o, Refreshing), RefreshAttempt(p)) == Paid(f, p, o, ref)
  {
    var s := Paid(f, p, o, ref);
    assert s.procs[p := Pay(o, Refreshing)][p := s.procs[p]] == s.procs;
  }

  /** The second commit pays the invoice; on a stale re-read, whatever the row holds by then. */
  lemma CloseRuns(cfg: Config, f: State, p: Pid, o: Order, ref: string, stale: bool)
    requires CanClose(cfg, f, p, o, ref, stale)
    ensures Run(cfg, f, CloseSteps(p, stale)) == Paid(f, p, o, ref)
  {
    var held := f.locks[o.invoice := p];
    var outbox := FanOut(f, o.business, InvoicePaid(p), PaidPayload(o.invoice, f.attempts[p].amountCents, ref));
    var r3: seq<Step> := [RefreshAttempt(p)];
    var r2 := [CommitOutcome(p)] + r3;
    var r1 := [EnqueueOutcome(p)] + r2;
    assert CloseSteps(p, stale) == [RelockInvoice(p, stale)] + r1;
    RunFirst(cfg, f, RelockInvoice(p, stale), r1);
    RelockPasses(cfg, f, p, o, ref, stale);
    RunFirst(cfg, At(f, p, o, Relocked(Approved(ref))).(locks := held), EnqueueOutcome(p), r2);
    EnqueueFans(cfg, f, p, o, ref, held);
    RunFirst(cfg, At(f, p, o, Enqueued(Approved(ref), outbox)).(locks := held), CommitOutcome(p), r3);
    OutcomeCommits(cfg, f, p, o, ref);
    RunOne(cfg, At(Paid(f, p, o, ref), p, o, Refreshing), RefreshAttempt(p));
    RefreshReturns(cfg, f, p, o, ref);
  }

  ghost function PaySteps(p: Pid, o: Order, ref: string): seq<Step> {
    ReserveSteps(p, o) + ChargeSteps(p, ref) + CloseSteps(p, false)
  }

  ghost function PaidFrom(cfg: Config, s: State, p: Pid, o: Order, ref: string): State
    requires o.invoice in s.invoices
  {
    Paid(Charging(Reserving(cfg, s, p, o), p, o, ref), p, o, ref)
  }

  lemma PayRuns(cfg: Config, s: State, p: Pid, o: Order, ref: string)
    requires Payable(s, p, o) && p !in s.attempts
    ensures Run(cfg, s, PaySteps(p, o, ref)) == PaidFrom(cfg, s, p, o, ref)
  {
    var r := Reserving(cfg, s, p, o);
    var f := Charging(r, p, o, ref);
    ReserveRuns(cfg, s, p, o);
    ChargeRuns(cfg, r, p, o, ref);
    CloseRuns(cfg, f, p, o, ref, false);
    RunConcat(cfg, s, ReserveSteps(p, o) + ChargeSteps(p, ref), CloseSteps(p, false));
    RunConcat(cfg, s, ReserveSteps(p, o), ChargeSteps(p, ref));
  }

  /** A payment that nothing interrupts succeeds: the invoice is PAID, its total was
      charged once, the caller gets its own attempt as succeeded, and every active
      endpoint of the business gets one row. */
  lemma UncontendedPaymentSucceeds(cfg: Config, s: State, p: Pid, o: Order, ref: string)
    requires Payable(s, p, o) && p !in s.attempts && p !in s.psp
    ensures var s', total := Run(cfg, s, PaySteps(p, o, ref)), s.invoices[o.invoice].totalCents;
            && s'.invoices == s.invoices[o.invoice := s.invoices[o.invoice].(state := PAID)]
            && s'.attempts == s.attempts[p := NewAttempt(cfg, o, total).(status := SUCCEEDED, pspRef := Some(ref))]
            && s'.psp == s.psp[p := Charge(total, Charged)]
            && s'.procs == s.procs[p := Pay(o, PayDone(Returned(p, SUCCEEDED, false)))]
            && s'.locks == s.locks
            && s'.deliveries == s.deliveries + FanOut(s, o.business, InvoicePaid(p), PaidPayload(o.invoice, total, ref))
  {
    PayRuns(cfg, s, p, o, ref);
    var row := NewAttempt(cfg, o, s.invoices[o.invoice].totalCents);
    var paid := row.(status := SUCCEEDED, pspRef := Some(ref));
    assert s.attempts[p := row][p := paid] == s.attempts[p := paid];
  }

  /******* transition_invoice_state in two halves *******/

  ghost function ReadSteps(m: Pid, b: BusinessId, i: Pid, target: InvoiceState): seq<Step> {
    [StartMove(m, b, i, target), ReadMove(m)]
  }

  ghost function Moving(s: State, m: Pid, b: BusinessId, i: Pid, target: InvoiceState, mv: MovePc): State {
    s.(procs := s.procs[m := Move(b, i, target, mv)])
  }

  ghost function WithState(s: State, i: Pid, state: InvoiceState): State
    requires i in s.invoices
  {
    s.(invoices := s.invoices[i := s.invoices[i].(state := state)])
  }

  lemma MoveStarts(cfg: Config, s: State, m: Pid, b: BusinessId, i: Pid, target: InvoiceState)
    requires m !in s.procs && target in {OPEN, VOID, UNCOLLECTIBLE}
    ensures Apply(cfg, s, StartMove(m, b, i, target)) == Moving(s, m, b, i, target, MoveStarted)
  {}

  lemma MoveReads(cfg: Config, s: State, m: Pid, b: BusinessId, i: Pid, target: InvoiceState)
    requires i in s.invoices && s.invoices[i].business == b && Allowed(s.invoices[i].state, target)
    ensures Apply(cfg, Moving(s, m, b, i, target, MoveStarted), ReadMove(m)) ==
            Moving(s, m, b, i, target, MoveRead(s.invoices[i].state))
  {}

  lemma ReadRuns(cfg: Config, s: State, m: Pid, b: BusinessId, i: Pid, target: InvoiceState)
    requires m !in s.procs && i in s.invoices && s.invoices[i].business == b
    requires target in {OPEN, VOID, UNCOLLECTIBLE} && Allowed(s.invoices[i].state, target)
    ensures Run(cfg, s, ReadSteps(m, b, i, target)) == Moving(s, m, b, i, target, MoveRead(s.invoices[i].state))
  {
    assert ReadSteps(m, b, i, target) == [StartMove(m, b, i, target)] + [ReadMove(m)];
    RunFirst(cfg, s, StartMove(m, b, i, target), [ReadMove(m)]);
    MoveStarts(cfg, s, m, b, i, target);
    RunOne(cfg, Moving(s, m, b, i, target, MoveStarted), ReadMove(m));
    MoveReads(cfg, s, m, b, i, target);
  }

  ghost function WriteSteps(m: Pid): seq<Step> {
    [WriteMove(m), CommitMove(m)]
  }

  ghost predicate CanWrite(cfg: Config, s: State, m: Pid, b: BusinessId, i: Pid, target: InvoiceState,
                           seen: InvoiceState)
  {
    && m in s.procs && s.procs[m] == Move(b, i, target, MoveRead(seen))
    && i in s.invoices && i !in s.locks && (Atomic(cfg, target) ==> s.invoices[i].state == seen)
  }

  lemma MoveWrites(cfg: Config, s: State, m: Pid, b: BusinessId, i: Pid, target: InvoiceState, seen: InvoiceState)
    requires CanWrite(cfg, s, m, b, i, target, seen)
    ensures Apply(cfg, s, WriteMove(m)) == Moving(s, m, b, i, target, MoveWritten(seen)).(locks := s.locks[i := m])
  {}

  lemma MoveCommits(cfg: Config, s: State, m: Pid, b: BusinessId, i: Pid, target: InvoiceState, seen: InvoiceState)
    requires i in s.invoices && i !in s.locks
    ensures Apply(cfg, Moving(s, m, b, i, target, MoveWritten(seen)).(locks := s.locks[i := m]), CommitMove(m)) ==
            WithState(Moving(s, m, b, i, target, MoveDone(MoveApplied)), i, target)
  {
    assert s.locks[i := m] - {i} == s.locks;
  }

  /** The write goes over whatever the row holds, unless reading and writing are one step. */
  lemma WriteRuns(cfg: Config, s: State, m: Pid, b: BusinessId, i: Pid, target: InvoiceState, seen: InvoiceState)
    requires CanWrite(cfg, s, m, b, i, target, seen)
    ensures Run(cfg, s, WriteSteps(m)) == WithState(Moving(s, m, b, i, target, MoveDone(MoveApplied)), i, target)
  {
    assert WriteSteps(m) == [WriteMove(m)] + [CommitMove(m)];
    RunFirst(cfg, s, WriteMove(m), [CommitMove(m)]);
    MoveWrites(cfg, s, m, b, i, target, seen);
    RunOne(cfg, Moving(s, m, b, i, target, MoveWritten(seen)).(locks := s.locks[i := m]), CommitMove(m));
    MoveCommits(cfg, s, m, b, i, target, seen);
  }
}
