/** What a single step leaves alone. */
module ProtocolFrames {
  import opened InvoiceStates
  import opened PaymentProtocol
  import opened ProtocolInvariant

  lemma {:induction false} RunGrows(cfg: Config, s: State, steps: seq<Step>)
    requires Inv(cfg, s)
    ensures Grows(TablesOf(s), TablesOf(Run(cfg, s, steps)))
    decreases |steps|
  {
    if steps != [] {
      var front := steps[..|steps| - 1];
      RunGrows(cfg, s, front);
      RunKeeps(cfg, s, front);
      StepGrows(cfg, Run(cfg, s, front), steps[|steps| - 1]);
    }
  }

  /** The provider's decision on a charge is final, and a charge is not sent twice. */
  lemma DecisionStep(cfg: Config, s: State, step: Step, c: Pid)
    requires Inv(cfg, s) && c in s.psp
    ensures c in Apply(cfg, s, step).psp
    ensures s.psp[c].stage != Undecided ==> Apply(cfg, s, step).psp[c] == s.psp[c]
    ensures Apply(cfg, s, step).psp[c].amountCents == s.psp[c].amountCents
  {
    if !WritesTables(step) {
      StepGrows(cfg, s, step);
    } else if step.SendCharge? || step.PspCharges? || step.PspDeclines? {
      ChargeWritten(cfg, s, step, c);
    } else {
      ChargesKept(cfg, s, step);
    }
  }

  lemma ChargeWritten(cfg: Config, s: State, step: Step, c: Pid)
    requires Inv(cfg, s) && c in s.psp && (step.SendCharge? || step.PspCharges? || step.PspDeclines?)
    ensures c in Apply(cfg, s, step).psp
    ensures s.psp[c].stage != Undecided ==> Apply(cfg, s, step).psp[c] == s.psp[c]
    ensures Apply(cfg, s, step).psp[c].amountCents == s.psp[c].amountCents
  {
    if step.SendCharge? && IsPay(s, step.p) { PayFacts(cfg, s, step.p); }
  }

  lemma ChargesKept(cfg: Config, s: State, step: Step)
    requires step.CommitReservation? || step.CommitOutcome? || step.CommitMove? || step.CommitCreate?
    ensures Apply(cfg, s, step).psp == s.psp
  {}

  lemma {:induction false} DecisionsFinal(cfg: Config, s: State, steps: seq<Step>, c: Pid)
    requires Inv(cfg, s) && c in s.psp
    ensures c in Run(cfg, s, steps).psp
    ensures s.psp[c].stage != Undecided ==> Run(cfg, s, steps).psp[c] == s.psp[c]
    decreases |steps|
  {
    if steps != [] {
      var front := steps[..|steps| - 1];
      DecisionsFinal(cfg, s, front, c);
      RunKeeps(cfg, s, front);
      DecisionStep(cfg, Run(cfg, s, front), steps[|steps| - 1], c);
    }
  }

  /** Who writes an attempt row: its own unfinished call, at one of the two commits. */
  lemma AttemptWriter(cfg: Config, s: State, step: Step, a: Pid)
    requires Inv(cfg, s)
    requires a in Apply(cfg, s, step).attempts && (a !in s.attempts || Apply(cfg, s, step).attempts[a] != s.attempts[a])
    ensures IsPay(s, a) && !Ended(s.procs[a].at)
    ensures s.procs[a].at.Inserted? || OwnPending(TablesOf(s), a)
    ensures Apply(cfg, s, step).attempts[a].invoice == s.procs[a].order.invoice
  {
    if !WritesTables(step) {
      StepGrows(cfg, s, step);
    } else {
      match step
      case CommitReservation(p) => if IsPay(s, p) { PayFacts(cfg, s, p); }
      case CommitOutcome(p) => OutcomeWriter(cfg, s, p, a);
      case _ =>
    }
  }

  lemma OutcomeWriter(cfg: Config, s: State, p: Pid, a: Pid)
    requires Inv(cfg, s)
    requires a in DoCommitOutcome(s, p).attempts &&
             (a !in s.attempts || DoCommitOutcome(s, p).attempts[a] != s.attempts[a])
    ensures a == p && IsPay(s, a) && !Ended(s.procs[a].at)
    ensures OwnPending(TablesOf(s), a)
    ensures DoCommitOutcome(s, p).attempts[a].invoice == s.procs[a].order.invoice
  {
    PayFacts(cfg, s, p);
    RowFacts(cfg, s, p);
  }

  /** Who settles an attempt: its own call, at its second commit, which also pays the invoice. */
  lemma SuccessWriter(cfg: Config, s: State, step: Step, i: Pid, a: Pid)
    requires Inv(cfg, s) && PaidBy(Apply(cfg, s, step).attempts, i, a) && !PaidBy(s.attempts, i, a)
    ensures step == CommitOutcome(a) && PaysNow(s, a, i) && OwnPending(TablesOf(s), a)
    ensures i in Apply(cfg, s, step).invoices && Apply(cfg, s, step).invoices[i].state == PAID
  {
    AttemptWriter(cfg, s, step, a);
    if !WritesTables(step) {
      StepGrows(cfg, s, step);
    } else if step.CommitOutcome? {
      OutcomeSettles(cfg, s, step.p, i, a);
    } else if step.CommitReservation? {
      ReservationIsPending(cfg, s, step.p, i, a);
    } else {
      AttemptsKept(cfg, s, step);
    }
  }

  lemma ReservationIsPending(cfg: Config, s: State, p: Pid, i: Pid, a: Pid)
    ensures PaidBy(DoCommitReservation(cfg, s, p).attempts, i, a) ==> PaidBy(s.attempts, i, a)
  {}

  lemma AttemptsKept(cfg: Config, s: State, step: Step)
    requires step.SendCharge? || step.CommitMove? || step.CommitCreate? || step.PspCharges? || step.PspDeclines?
    ensures Apply(cfg, s, step).attempts == s.attempts
  {}

  lemma OutcomeSettles(cfg: Config, s: State, p: Pid, i: Pid, a: Pid)
    requires Inv(cfg, s) && PaidBy(DoCommitOutcome(s, p).attempts, i, a) && !PaidBy(s.attempts, i, a)
    ensures a == p && PaysNow(s, p, i) && OwnPending(TablesOf(s), p)
    ensures i in DoCommitOutcome(s, p).invoices && DoCommitOutcome(s, p).invoices[i].state == PAID
  {
    PayFacts(cfg, s, p);
    RowFacts(cfg, s, p);
  }

  /** Who calls the provider: a call that has just made its reservation. */
  lemma ChargeSender(cfg: Config, s: State, step: Step, c: Pid)
    requires Inv(cfg, s) && c in Apply(cfg, s, step).psp && c !in s.psp
    ensures IsPay(s, c) && s.procs[c].at.Reserved?
  {
    if !WritesTables(step) {
      StepGrows(cfg, s, step);
    } else if step.CommitReservation? || step.CommitOutcome? || step.CommitMove? || step.CommitCreate? {
      ChargesKept(cfg, s, step);
    }
  }

  /** Who changes the state of an invoice: a transition that has written it, or a payment that succeeds. */
  lemma StateWriter(cfg: Config, s: State, step: Step, i: Pid)
    requires Inv(cfg, s) && i in s.invoices
    ensures i in Apply(cfg, s, step).invoices
    ensures Apply(cfg, s, step).invoices[i].state != s.invoices[i].state ==>
              || (step.CommitMove? && WroteMove(s, step.p, i) &&
                  Apply(cfg, s, step).invoices[i].state == s.procs[step.p].target)
              || (step.CommitOutcome? && PaysNow(s, step.p, i) && s.invoices[i].state != DRAFT &&
                  Apply(cfg, s, step).invoices[i].state == PAID)
  {
    StepGrows(cfg, s, step);
    match step
    case CommitMove(_) =>
    case CommitOutcome(p) => OutcomeStateWriter(cfg, s, p, i);
    case CommitCreate(p) => if IsCreate(s, p) { CreateFacts(cfg, s, p); }
    case _ => InvoicesKept(cfg, s, step);
  }

  ghost predicate WroteMove(s: State, p: Pid, i: Pid) {
    IsMove(s, p) && s.procs[p].mv.MoveWritten? && s.procs[p].invoice == i
  }

  /** The next commit of call p pays invoice i. */
  ghost predicate PaysNow(s: State, p: Pid, i: Pid) {
    AtApproved(s, p) && s.procs[p].order.invoice == i
  }

  lemma OutcomeStateWriter(cfg: Config, s: State, p: Pid, i: Pid)
    requires Inv(cfg, s) && i in s.invoices
    ensures i in DoCommitOutcome(s, p).invoices
    ensures DoCommitOutcome(s, p).invoices[i].state != s.invoices[i].state ==>
              PaysNow(s, p, i) && s.invoices[i].state != DRAFT && DoCommitOutcome(s, p).invoices[i].state == PAID
  {
    if AtApproved(s, p) { RowFacts(cfg, s, p); }
  }

  lemma InvoicesKept(cfg: Config, s: State, step: Step)
    requires Inv(cfg, s) && !step.CommitMove? && !step.CommitOutcome? && !step.CommitCreate?
    ensures Apply(cfg, s, step).invoices == s.invoices
  {
    if !WritesTables(step) { StepGrows(cfg, s, step); }
  }

  /** The statements of a call do nothing for a request that is not one. */
  lemma CallStays(cfg: Config, s: State, step: Step)
    requires || step.CacheLookup? || step.LockInvoice? || step.InsertAttempt? || step.RefetchWinner? ||
             step.CommitReservation?
             || step.SendCharge? || step.ReplyArrives? || step.ReplyLost? || step.FlushOutcome? || step.RelockInvoice?
             || step.EnqueueOutcome? || step.CommitOutcome? || step.RefreshAttempt?
    requires !IsPay(s, step.p)
    ensures Apply(cfg, s, step) == s
  {}
}
