/** What was true when a call got its answer. */
module PaymentAnswers {
  import opened InvoiceStates
  import opened Options
  import opened PaymentProtocol
  import opened ProtocolInvariant
  import opened StatementCases

  ghost predicate Visible(s: State, o: Order) {
    o.invoice in s.invoices && s.invoices[o.invoice].business == o.business
  }

  /** Another call's attempt on the invoice is in flight or unresolved. */
  ghost predicate RivalPending(s: State, i: Pid, p: Pid) {
    exists a :: a != p && a in s.attempts && s.attempts[a].invoice == i && s.attempts[a].status == PENDING
  }

  /** What the answer to call p says about the state in which it was given. */
  ghost predicate Reason(cfg: Config, s: State, p: Pid, o: Order, result: PayResult) {
    match result
    case NotFoundError => !Visible(s, o)
    case InvalidStateTransition =>
      Visible(s, o) && (s.invoices[o.invoice].state != OPEN || RivalPending(s, o.invoice, p))
    case IdempotencyConflict => OtherBody(cfg, TablesOf(s), o) || NothingDue(TablesOf(s), o.invoice)
    case Returned(a, status, isCached) =>
      && Matches(s, a, o) && s.attempts[a].status == status
      && s.attempts[a].requestHash == cfg.hash(o.cardToken) && (isCached <==> a != p)
    case Died => true
  }

  ghost predicate Running(s: State, p: Pid) {
    IsPay(s, p) && !s.procs[p].at.PayDone?
  }

  ghost predicate Answered(s: State, p: Pid) {
    IsPay(s, p) && s.procs[p].at.PayDone?
  }

  lemma LockReason(cfg: Config, s: State, p: Pid)
    requires Running(s, p) && Answered(DoLockInvoice(s, p), p)
    ensures Reason(cfg, s, p, s.procs[p].order, DoLockInvoice(s, p).procs[p].at.result)
  {
    if s.procs[p].at.CacheMissed? { LockCases(s, p); }
  }

  lemma InsertReason(cfg: Config, s: State, p: Pid, report: Report)
    requires Inv(cfg, s) && Running(s, p) && Answered(DoInsertAttempt(s, p, report), p)
    ensures Reason(cfg, s, p, s.procs[p].order, DoInsertAttempt(s, p, report).procs[p].at.result)
  {
    if s.procs[p].at.LockedOpen? {
      InsertCases(s, p, report);
      PayFacts(cfg, s, p);
    }
  }

  lemma RelockReason(cfg: Config, s: State, p: Pid, stale: bool)
    requires Inv(cfg, s) && Running(s, p) && Answered(DoRelockInvoice(cfg, s, p, stale), p)
    ensures Reason(cfg, s, p, s.procs[p].order, DoRelockInvoice(cfg, s, p, stale).procs[p].at.result)
  {
    if s.procs[p].at.Flushed? && s.procs[p].at.reply.Approved? {
      RelockCases(cfg, s, p, stale);
      PayFacts(cfg, s, p);
      RowFacts(cfg, s, p);
    }
  }

  /** The two lookups and the refresh answer from a row as it is, or with a conflict. */
  lemma LookupReason(cfg: Config, s: State, step: Step)
    requires Inv(cfg, s) && (step.CacheLookup? || step.RefetchWinner? || step.RefreshAttempt?)
    requires Running(s, step.p) && Answered(Apply(cfg, s, step), step.p)
    ensures Reason(cfg, s, step.p, s.procs[step.p].order, Apply(cfg, s, step).procs[step.p].at.result)
  {
    StepKeeps(cfg, s, step);
    RowAnswer(cfg, s, Apply(cfg, s, step), step.p);
    LookupResults(cfg, s, step);
  }

  lemma LookupResults(cfg: Config, s: State, step: Step)
    requires step.CacheLookup? || step.RefetchWinner? || step.RefreshAttempt?
    requires Running(s, step.p) && Answered(Apply(cfg, s, step), step.p)
    ensures FromRow(Apply(cfg, s, step).procs[step.p].at.result)
  {
    match step
    case CacheLookup(p) => CacheResult(cfg, s, p);
    case RefetchWinner(p) => RefetchResult(cfg, s, p);
    case RefreshAttempt(_) =>
  }

  predicate FromRow(result: PayResult) {
    result.Returned? || result.IdempotencyConflict?
  }

  lemma CacheResult(cfg: Config, s: State, p: Pid)
    requires Running(s, p) && Answered(DoCacheLookup(cfg, s, p), p)
    ensures FromRow(DoCacheLookup(cfg, s, p).procs[p].at.result)
  {}

  lemma RefetchResult(cfg: Config, s: State, p: Pid)
    requires Running(s, p) && Answered(DoRefetchWinner(cfg, s, p), p)
    ensures FromRow(DoRefetchWinner(cfg, s, p).procs[p].at.result)
  {}

  lemma RowAnswer(cfg: Config, s: State, s': State, p: Pid)
    requires Inv(cfg, s') && Moved(s, p, s') && Quiet(s, s') && Running(s, p) && Answered(s', p)
    ensures var result := s'.procs[p].at.result;
            FromRow(result) ==> Reason(cfg, s, p, s.procs[p].order, result)
  {
    PayFacts(cfg, s', p);
  }

  lemma AbortReason(cfg: Config, s: State, p: Pid)
    requires Running(s, p) && Answered(DoAbort(s, p), p)
    ensures Reason(cfg, s, p, s.procs[p].order, DoAbort(s, p).procs[p].at.result)
  {
    AbortCase(s, p);
  }

  /** No other statement ends a call. */
  lemma KeepsGoing(cfg: Config, s: State, step: Step, p: Pid)
    requires Inv(cfg, s) && Running(s, p)
    requires !step.CacheLookup? && !step.LockInvoice? && !step.InsertAttempt? && !step.RefetchWinner?
    requires !step.RelockInvoice? && !step.RefreshAttempt? && !step.Abort?
    ensures Running(Apply(cfg, s, step), p)
  {
    RequestStep(cfg, s, step, p);
    if step.CommitOutcome? && step.p == p {
      OutcomeGoesOn(s, p);
    } else if Actor(step) == Some(p) {
      if step.StartMove? || step.ReadMove? || step.WriteMove? || step.CommitMove? || step.StartCreate?
         || step.EnqueueCreate? || step.CommitCreate? || step.StartPay? {
        OtherStepGoesOn(cfg, s, step);
      } else {
        OwnStepGoesOn(cfg, s, step);
      }
    }
  }

  lemma OutcomeGoesOn(s: State, p: Pid)
    requires Running(s, p)
    ensures Running(DoCommitOutcome(s, p), p)
  {
    if AtLost(s, p) {
      LostCase(s, p);
    } else if AtRefused(s, p) {
      RefusedCase(s, p);
    } else if AtApproved(s, p) {
      ApprovedCase(s, p);
    }
  }

  lemma OwnStepGoesOn(cfg: Config, s: State, step: Step)
    requires Actor(step).Some? && Running(s, step.p)
    requires || step.CommitReservation? || step.SendCharge? || step.ReplyArrives? || step.ReplyLost?
             || step.FlushOutcome? || step.EnqueueOutcome?
    ensures Running(Apply(cfg, s, step), step.p)
  {}

  lemma OtherStepGoesOn(cfg: Config, s: State, step: Step)
    requires Actor(step).Some? && Running(s, step.p)
    requires || step.StartPay? || step.StartMove? || step.ReadMove? || step.WriteMove? || step.CommitMove?
             || step.StartCreate? || step.EnqueueCreate? || step.CommitCreate?
    ensures Running(Apply(cfg, s, step), step.p)
  {}

  /** The step that ends a call has a reason for its answer. */
  lemma AnswerStep(cfg: Config, s: State, step: Step, p: Pid)
    requires Inv(cfg, s) && Running(s, p) && Answered(Apply(cfg, s, step), p)
    ensures Actor(step) == Some(p)
    ensures Reason(cfg, s, p, s.procs[p].order, Apply(cfg, s, step).procs[p].at.result)
  {
    RequestStep(cfg, s, step, p);
    match step
    case LockInvoice(_) => LockReason(cfg, s, p);
    case InsertAttempt(_, report) => InsertReason(cfg, s, p, report);
    case RelockInvoice(_, stale) => RelockReason(cfg, s, p, stale);
    case CacheLookup(_) | RefetchWinner(_) | RefreshAttempt(_) => LookupReason(cfg, s, step);
    case Abort(_) => AbortReason(cfg, s, p);
    case _ => KeepsGoing(cfg, s, step, p);
  }

  /** Step k is the one that gives the call its answer, and there was a reason for the answer just before it. */
  ghost predicate AnsweredAt(cfg: Config, steps: seq<Step>, k: nat, p: Pid, o: Order, result: PayResult) {
    && k < |steps| && Actor(steps[k]) == Some(p)
    && !Answered(Run(cfg, EMPTY, steps[..k]), p) && Answered(Run(cfg, EMPTY, steps[..k + 1]), p)
    && Reason(cfg, Run(cfg, EMPTY, steps[..k]), p, o, result)
  }

  /** Every answer was justified when it was given: not found means that the business had no
      such invoice, an invalid transition that the invoice was not open or had another call's
      attempt pending, a conflict that the key belonged to another body or that nothing was due,
      and a returned attempt was the row of this invoice, key and body with that status. */
  lemma {:induction false} AnswersHaveReasons(cfg: Config, steps: seq<Step>, p: Pid)
    requires Answered(Run(cfg, EMPTY, steps), p)
    ensures var pr := Run(cfg, EMPTY, steps).procs[p];
            exists k: nat :: AnsweredAt(cfg, steps, k, p, pr.order, pr.at.result)
    decreases |steps|
  {
    var front, step := steps[..|steps| - 1], steps[|steps| - 1];
    assert steps == front + [step];
    Reachable(cfg, front);
    LastStep(cfg, front, step, p);
    if Answered(Run(cfg, EMPTY, front), p) {
      AnswersHaveReasons(cfg, front, p);
      var pr := Run(cfg, EMPTY, front).procs[p];
      var k: nat :| AnsweredAt(cfg, front, k, p, pr.order, pr.at.result);
      assert steps[..k] == front[..k] && steps[..k + 1] == front[..k + 1];
      assert AnsweredAt(cfg, steps, k, p, pr.order, pr.at.result);
    }
  }

  /** The call had its answer before the last step, or it gets it in that step. */
  lemma LastStep(cfg: Config, front: seq<Step>, step: Step, p: Pid)
    requires Inv(cfg, Run(cfg, EMPTY, front))
    requires var s' := Run(cfg, EMPTY, front + [step]);
             s' == Apply(cfg, Run(cfg, EMPTY, front), step) && Answered(s', p)
    ensures var s, s' := Run(cfg, EMPTY, front), Run(cfg, EMPTY, front + [step]);
            if Answered(s, p) then s'.procs[p] == s.procs[p]
            else AnsweredAt(cfg, front + [step], |front|, p, s'.procs[p].order, s'.procs[p].at.result)
  {
    var s := Run(cfg, EMPTY, front);
    RequestStep(cfg, s, step, p);
    if Running(s, p) {
      AnswerStep(cfg, s, step, p);
      assert (front + [step])[..|front|] == front && (front + [step])[..|front| + 1] == front + [step];
    } else if p !in s.procs {
      NewCallRuns(cfg, s, step, p);
    }
  }

  /** A call does not end in the step that starts it. */
  lemma NewCallRuns(cfg: Config, s: State, step: Step, p: Pid)
    requires Inv(cfg, s) && p !in s.procs && IsPay(Apply(cfg, s, step), p)
    ensures Running(Apply(cfg, s, step), p)
  {
    RequestStep(cfg, s, step, p);
    if step.StartPay? || step.StartMove? || step.StartCreate? {
    } else if step.Abort? {
    } else if step.CommitOutcome? || step.RelockInvoice? || step.EnqueueOutcome? || step.FlushOutcome? ||
      step.RefreshAttempt? {
    } else if step.ReplyArrives? || step.ReplyLost? || step.SendCharge? || step.CommitReservation? ||
      step.LockInvoice? {
    } else if step.CacheLookup? || step.InsertAttempt? || step.RefetchWinner? {
    } else if step.ReadMove? || step.WriteMove? || step.CommitMove? || step.EnqueueCreate? || step.CommitCreate? {
    }
  }
}
