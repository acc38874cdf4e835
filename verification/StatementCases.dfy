/** The statements with several outcomes, case by case. */
module StatementCases {
  import opened InvoiceStates
  import opened Options
  import opened FailureCodes
  import opened PaymentProtocol
  import opened ProtocolInvariant

  /** A request between its two commits has its attempt row, and the row's invoice exists. */
  lemma OwnRow(cfg: Config, s: State, p: Pid)
    requires Inv(cfg, s) && IsPay(s, p)
    requires var pc := s.procs[p].at;
             pc.Reserved? || pc.Sent? || pc.Replied? || pc.Flushed? || pc.Relocked? || pc.Enqueued?
    ensures p in s.attempts && s.attempts[p].status == PENDING && s.procs[p].order.invoice in s.invoices
    ensures s.procs[p].at.Sent? ==> p in s.psp
  {
    PayFacts(cfg, s, p);
    RowFacts(cfg, s, p);
  }

  lemma LockCases(s: State, p: Pid)
    requires IsPay(s, p) && s.procs[p].at.CacheMissed?
    ensures var o := s.procs[p].order; var i := o.invoice;
            DoLockInvoice(s, p) ==
            if i !in s.invoices || s.invoices[i].business != o.business then SetPay(s, p, PayDone(NotFoundError))
            else if i in s.locks then s
            else if s.invoices[i].state != OPEN then SetPay(s, p, PayDone(InvalidStateTransition))
            else SetPay(s, p, LockedOpen(s.invoices[i].totalCents)).(locks := s.locks[i := p])
  {}

  lemma RelockCases(cfg: Config, s: State, p: Pid, stale: bool)
    requires IsPay(s, p) && s.procs[p].at.Flushed? && s.procs[p].at.reply.Approved?
    ensures var i := s.procs[p].order.invoice;
            DoRelockInvoice(cfg, s, p, stale) ==
            if i !in s.invoices || i in s.locks || (stale && cfg.freshReread) then s
            else if !stale && s.invoices[i].state != OPEN then SetPay(s, p, PayDone(InvalidStateTransition))
            else SetPay(s, p, Relocked(s.procs[p].at.reply)).(locks := s.locks[i := p])
  {}

  lemma InsertCases(s: State, p: Pid, report: Report)
    requires IsPay(s, p) && s.procs[p].at.LockedOpen?
    ensures var o, amount := s.procs[p].order, s.procs[p].at.totalCents;
            var waits, pending, taken := Contended(s, o.invoice), PendingOn(s, o.invoice), KeyTaken(s, o);
            DoInsertAttempt(s, p, report) ==
            if amount <= 0 then SetPay(s, p, Conflicted).(locks := s.locks - {o.invoice})
            else if waits then s
            else if !pending && !taken then SetPay(s, p, Inserted(amount))
            else if report.PendingIndex? && pending then
              SetPay(s, p, PayDone(InvalidStateTransition)).(locks := s.locks - {o.invoice})
            else if report.IdempotencyIndex? && taken then SetPay(s, p, Conflicted).(locks := s.locks - {o.invoice})
            else s
  {}

  lemma LostCase(s: State, p: Pid)
    requires AtLost(s, p)
    ensures DoCommitOutcome(s, p) == s.(
              procs := s.procs[p := Pay(s.procs[p].order, Refreshing)],
              attempts := s.attempts[p := s.attempts[p].(failureCode := Some(FailureCode(s.procs[p].at.reply.error)))])
  {}

  lemma RefusedCase(s: State, p: Pid)
    requires AtRefused(s, p)
    ensures DoCommitOutcome(s, p) == s.(
              procs := s.procs[p := Pay(s.procs[p].order, Refreshing)],
              attempts := s.attempts[p := s.attempts[p].(status := FAILED,
                                                         failureCode := Some(s.procs[p].at.reply.code))],
              deliveries := s.deliveries + s.procs[p].at.outbox)
  {}

  lemma AbortCase(s: State, p: Pid)
    requires p in s.procs && !Finished(s.procs[p])
    ensures DoAbort(s, p) == s.(procs := s.procs[p := Killed(s.procs[p])],
                                locks := if Guarded(s.procs[p]) then s.locks - {InvoiceOf(s.procs[p])} else s.locks)
  {}

  /** What the second commit writes on success, field by field. */
  lemma ApprovedCase(s: State, p: Pid)
    requires AtApproved(s, p)
    ensures var o, pc := s.procs[p].order, s.procs[p].at;
            DoCommitOutcome(s, p) == s.(
              procs := s.procs[p := Pay(o, Refreshing)],
              attempts := s.attempts[p := s.attempts[p].(status := SUCCEEDED, pspRef := Some(pc.reply.pspRef))],
              invoices := s.invoices[o.invoice := s.invoices[o.invoice].(state := PAID)],
              deliveries := s.deliveries + pc.outbox,
              locks := s.locks - {o.invoice})
  {}
}
