/** What the provider's reply decides: a call whose reply was lost stays unknown, one that was
    answered is settled by that answer or not at all, and every settled attempt had its answer. */
module PaymentReplies {
  import opened InvoiceStates
  import opened Options
  import opened FailureCodes
  import opened PaymentProtocol
  import opened ProtocolInvariant
  import opened ProtocolFrames

  /******* Where money and refusals come from *******/

  /** The provider itself decided this charge, at step k. */
  ghost predicate DecidedAt(cfg: Config, steps: seq<Step>, k: nat, c: Pid, stage: ChargeStage) {
    && k < |steps| && steps[k] == (if stage.Declined? then PspDeclines(c, stage.code) else PspCharges(c))
    && c in Run(cfg, EMPTY, steps[..k]).psp && Run(cfg, EMPTY, steps[..k]).psp[c].stage == Undecided
  }

  lemma StageWriter(cfg: Config, s: State, step: Step, c: Pid)
    requires Inv(cfg, s) && c in Apply(cfg, s, step).psp
    ensures c !in s.psp ==> Apply(cfg, s, step).psp[c].stage == Undecided
    ensures c in s.psp && Apply(cfg, s, step).psp[c].stage != s.psp[c].stage ==>
              && s.psp[c].stage == Undecided
              && (Apply(cfg, s, step).psp[c].stage == Charged ==> step == PspCharges(c))
              && (Apply(cfg, s, step).psp[c].stage.Declined? ==>
                    step == PspDeclines(c, Apply(cfg, s, step).psp[c].stage.code))
  {
    if !WritesTables(step) {
      StepGrows(cfg, s, step);
    } else if step.CommitReservation? || step.CommitOutcome? || step.CommitMove? || step.CommitCreate? {
      ChargesKept(cfg, s, step);
    } else if step.SendCharge? {
      SendingDecidesNothing(cfg, s, step.p, c);
    } else {
      ProviderDecides(s, step.p, if step.PspCharges? then Charged else Declined(step.code), c);
    }
  }

  lemma SendingDecidesNothing(cfg: Config, s: State, p: Pid, c: Pid)
    requires Inv(cfg, s) && c in DoSendCharge(s, p).psp
    ensures if c in s.psp then DoSendCharge(s, p).psp[c] == s.psp[c] else DoSendCharge(s, p).psp[c].stage == Undecided
  {
    if IsPay(s, p) { PayFacts(cfg, s, p); }
  }

  lemma ProviderDecides(s: State, p: Pid, stage: ChargeStage, c: Pid)
    requires c in DoPspDecides(s, p, stage).psp
    ensures c in s.psp
    ensures DoPspDecides(s, p, stage).psp[c].stage != s.psp[c].stage ==>
              c == p && s.psp[c].stage == Undecided && DoPspDecides(s, p, stage).psp[c].stage == stage
  {}

  ghost predicate Decided(cfg: Config, steps: seq<Step>, c: Pid, stage: ChargeStage) {
    exists k: nat :: DecidedAt(cfg, steps, k, c, stage)
  }

  /** A decision that shows was taken by the provider at some step. */
  ghost predicate DecisionShown(cfg: Config, steps: seq<Step>, s: State, c: Pid) {
    c in s.psp && s.psp[c].stage != Undecided ==> Decided(cfg, steps, c, s.psp[c].stage)
  }

  /** Money is taken only by the provider's own decision, once the call has asked; so is a refusal. */
  lemma {:induction false} DecisionsAreThePsps(cfg: Config, steps: seq<Step>, c: Pid)
    ensures DecisionShown(cfg, steps, Run(cfg, EMPTY, steps), c)
    decreases |steps|
  {
    if steps != [] {
      var front, step := steps[..|steps| - 1], steps[|steps| - 1];
      assert steps == front + [step];
      DecisionsAreThePsps(cfg, front, c);
      NextDecisionShown(cfg, front, step, c);
    }
  }

  lemma NextDecisionShown(cfg: Config, front: seq<Step>, step: Step, c: Pid)
    requires DecisionShown(cfg, front, Run(cfg, EMPTY, front), c)
    ensures DecisionShown(cfg, front + [step], Apply(cfg, Run(cfg, EMPTY, front), step), c)
  {
    var s := Run(cfg, EMPTY, front);
    var s' := Apply(cfg, s, step);
    Reachable(cfg, front);
    if c in s'.psp && s'.psp[c].stage != Undecided {
      StageWriter(cfg, s, step, c);
      if s.psp[c].stage == s'.psp[c].stage {
        StillDecided(cfg, front, step, c, s'.psp[c].stage);
      } else {
        DecidedNow(cfg, front, step, c, s'.psp[c].stage);
      }
    }
  }

  lemma StillDecided(cfg: Config, front: seq<Step>, step: Step, c: Pid, stage: ChargeStage)
    requires Decided(cfg, front, c, stage)
    ensures Decided(cfg, front + [step], c, stage)
  {
    var k: nat :| DecidedAt(cfg, front, k, c, stage);
    assert (front + [step])[..k] == front[..k];
    assert DecidedAt(cfg, front + [step], k, c, stage);
  }

  lemma DecidedNow(cfg: Config, front: seq<Step>, step: Step, c: Pid, stage: ChargeStage)
    requires step == (if stage.Declined? then PspDeclines(c, stage.code) else PspCharges(c))
    requires var s := Run(cfg, EMPTY, front); c in s.psp && s.psp[c].stage == Undecided
    ensures Decided(cfg, front + [step], c, stage)
  {
    assert (front + [step])[..|front|] == front;
    assert DecidedAt(cfg, front + [step], |front|, c, stage);
  }

  /******* The reply of a call *******/

  predicate HasReply(pc: PayPc) {
    pc.Replied? || pc.Flushed? || pc.Relocked? || pc.Enqueued?
  }

  function CodeOf(error: PspError): string {
    match error
    case PSPTimeout => "psp_timeout"
    case PSPNetworkError => "psp_unavailable"
  }

  /** The row is what the reply makes of it: a success with its reference, a refusal with its
      code, or an unknown outcome with the code of the error. */
  predicate RowMatches(row: Attempt, reply: Reply) {
    match reply
    case Approved(ref) => row.status == SUCCEEDED && row.pspRef == Some(ref)
    case Refused(code) => row.status == FAILED && row.failureCode == Some(code)
    case Lost(error) => row.status == PENDING && row.failureCode == Some(CodeOf(error))
  }

  /** Call p got this reply: it is on its way to write it, has written it, or has ended without
      writing anything and then returned nothing. */
  ghost predicate RepliedWith(s: State, p: Pid, reply: Reply) {
    && IsPay(s, p) && p in s.attempts
    && var pc, row := s.procs[p].at, s.attempts[p];
       if HasReply(pc) then pc.reply == reply && row.status == PENDING
       else if pc.Refreshing? then RowMatches(row, reply)
       else
         && pc.PayDone?
         && (RowMatches(row, reply) || row.status == PENDING)
         && (pc.result.Returned? ==> RowMatches(row, reply) && pc.result == Returned(p, row.status, false))
  }

  /** Step k gives call p this reply: the provider's decision, or an error whatever it decided. */
  ghost predicate RepliesAt(cfg: Config, steps: seq<Step>, k: nat, p: Pid, reply: Reply) {
    k < |steps| && RepliesNow(Run(cfg, EMPTY, steps[..k]), steps[k], p, reply)
  }

  ghost predicate RepliesNow(s: State, step: Step, p: Pid, reply: Reply) {
    && IsPay(s, p) && s.procs[p].at.Sent? && p in s.psp
    && match reply
       case Approved(ref) => step == ReplyArrives(p, ref) && s.psp[p].stage == Charged
       case Refused(code) => step.ReplyArrives? && step.p == p && s.psp[p].stage == Declined(code)
       case Lost(error) => step == ReplyLost(p, error)
  }

  lemma ReplyGiven(cfg: Config, s: State, step: Step, p: Pid, reply: Reply)
    requires Inv(cfg, s) && RepliesNow(s, step, p, reply)
    ensures RepliedWith(Apply(cfg, s, step), p, reply)
  {
    PayFacts(cfg, s, p);
  }

  /******* The reply decides *******/

  /** Who changes an attempt row, and how: the reservation, and the commit of its reply. */
  lemma RowWritten(cfg: Config, s: State, step: Step, a: Pid)
    requires Inv(cfg, s)
    requires a in Apply(cfg, s, step).attempts && (a !in s.attempts || Apply(cfg, s, step).attempts[a] != s.attempts[a])
    ensures IsPay(s, a)
    ensures var row := Apply(cfg, s, step).attempts[a];
            || (step == CommitReservation(a) && a !in s.attempts && s.procs[a].at.Inserted?
                && row.status == PENDING && row.failureCode.None?)
            || (step == CommitOutcome(a) && a in s.attempts && HasReply(s.procs[a].at)
                && RowMatches(row, s.procs[a].at.reply) && IsPay(Apply(cfg, s, step), a)
                && Apply(cfg, s, step).procs[a].at.Refreshing?)
  {
    AttemptWriter(cfg, s, step, a);
    PayFacts(cfg, s, a);
    if !WritesTables(step) {
      StepGrows(cfg, s, step);
    } else if step.CommitOutcome? {
      OutcomeWritten(cfg, s, step.p, a);
    } else if !step.CommitReservation? {
      AttemptsKept(cfg, s, step);
    }
  }

  /** The commit of an outcome does nothing, or writes the row as the reply makes it. */
  lemma CommitWrites(cfg: Config, s: State, p: Pid)
    requires Inv(cfg, s)
    ensures var s' := DoCommitOutcome(s, p);
            s' == s ||
            (&& IsPay(s, p) && HasReply(s.procs[p].at) && IsPay(s', p) && s'.procs[p].at.Refreshing?
             && p in s.attempts && p in s'.attempts && s'.attempts == s.attempts[p := s'.attempts[p]]
             && RowMatches(s'.attempts[p], s.procs[p].at.reply))
  {
    FailureCodesOfErrors();
    if AtLost(s, p) { PayFacts(cfg, s, p); }
  }

  lemma OutcomeWritten(cfg: Config, s: State, p: Pid, a: Pid)
    requires Inv(cfg, s)
    requires a in DoCommitOutcome(s, p).attempts &&
             (a !in s.attempts || DoCommitOutcome(s, p).attempts[a] != s.attempts[a])
    ensures a == p && a in s.attempts && IsPay(s, a) && HasReply(s.procs[a].at)
    ensures RowMatches(DoCommitOutcome(s, p).attempts[a], s.procs[a].at.reply)
    ensures IsPay(DoCommitOutcome(s, p), a) && DoCommitOutcome(s, p).procs[a].at.Refreshing?
  {
    CommitWrites(cfg, s, p);
  }

  /** A call keeps its reply until it commits it or ends without a row. */
  ghost predicate KeepsReply(pc: PayPc, pc': PayPc) {
    (HasReply(pc) && HasReply(pc') && pc'.reply == pc.reply) || (pc'.PayDone? && !pc'.result.Returned?)
  }

  lemma OutcomeKeepsReply(cfg: Config, s: State, step: Step)
    requires step.FlushOutcome? || step.RelockInvoice? || step.EnqueueOutcome? || step.Abort?
    requires IsPay(s, step.p) && HasReply(s.procs[step.p].at)
    ensures IsPay(Apply(cfg, s, step), step.p) && KeepsReply(s.procs[step.p].at, Apply(cfg, s, step).procs[step.p].at)
  {}

  lemma EarlierStepsPass(cfg: Config, s: State, step: Step)
    requires || step.CacheLookup? || step.LockInvoice? || step.InsertAttempt? || step.RefetchWinner?
             || step.CommitReservation? || step.SendCharge? || step.ReplyArrives? || step.ReplyLost?
    requires IsPay(s, step.p) && HasReply(s.procs[step.p].at)
    ensures Apply(cfg, s, step) == s
  {}

  lemma OtherStepsPass(cfg: Config, s: State, step: Step)
    requires || step.StartPay? || step.StartMove? || step.ReadMove? || step.WriteMove? || step.CommitMove?
             || step.StartCreate? || step.EnqueueCreate? || step.CommitCreate?
    requires IsPay(s, step.p)
    ensures Apply(cfg, s, step) == s
  {}

  lemma ReplyStays(cfg: Config, s: State, step: Step, p: Pid)
    requires Inv(cfg, s) && IsPay(s, p) && HasReply(s.procs[p].at) && Actor(step) == Some(p) && !step.CommitOutcome?
    ensures IsPay(Apply(cfg, s, step), p) && KeepsReply(s.procs[p].at, Apply(cfg, s, step).procs[p].at)
  {
    if step.FlushOutcome? || step.RelockInvoice? || step.EnqueueOutcome? || step.Abort? {
      OutcomeKeepsReply(cfg, s, step);
    } else if step.StartPay? || step.StartMove? || step.ReadMove? || step.WriteMove? || step.CommitMove?
              || step.StartCreate? || step.EnqueueCreate? || step.CommitCreate? {
      OtherStepsPass(cfg, s, step);
    } else if !step.RefreshAttempt? {
      EarlierStepsPass(cfg, s, step);
    }
  }

  lemma ReturnsRow(cfg: Config, s: State, step: Step, p: Pid)
    requires Inv(cfg, s) && IsPay(s, p) && s.procs[p].at.Refreshing? && p in s.attempts
    requires Actor(step) == Some(p)
    ensures var s' := Apply(cfg, s, step);
            IsPay(s', p) && (s'.procs[p] == s.procs[p] || s'.procs[p].at == PayDone(Died)
                             || s'.procs[p].at == PayDone(Returned(p, s.attempts[p].status, false)))
  {
    if step.StartPay? || step.StartMove? || step.ReadMove? || step.WriteMove? || step.CommitMove?
       || step.StartCreate? || step.EnqueueCreate? || step.CommitCreate? {
      OtherStepsPass(cfg, s, step);
    } else if !step.RefreshAttempt? && !step.Abort? {
      RefreshingPasses(cfg, s, step);
    }
  }

  lemma RefreshingPasses(cfg: Config, s: State, step: Step)
    requires || step.CacheLookup? || step.LockInvoice? || step.InsertAttempt? || step.RefetchWinner?
             || step.CommitReservation? || step.SendCharge? || step.ReplyArrives? || step.ReplyLost?
             || step.FlushOutcome? || step.RelockInvoice? || step.EnqueueOutcome? || step.CommitOutcome?
    requires IsPay(s, step.p) && s.procs[step.p].at.Refreshing?
    ensures Apply(cfg, s, step) == s
  {}

  lemma ReplyKept(cfg: Config, s: State, step: Step, p: Pid, reply: Reply)
    requires Inv(cfg, s) && RepliedWith(s, p, reply)
    ensures RepliedWith(Apply(cfg, s, step), p, reply)
  {
    var s' := Apply(cfg, s, step);
    RequestStep(cfg, s, step, p);
    StepGrows(cfg, s, step);
    if step == CommitOutcome(p) && HasReply(s.procs[p].at) {
      CommitKeepsReply(cfg, s, p, reply);
    } else if s'.attempts[p] != s.attempts[p] {
      RowWritten(cfg, s, step, p);
      assert false;
    } else if Actor(step) == Some(p) && !s.procs[p].at.PayDone? {
      OwnStepKeeps(cfg, s, step, p, reply);
    }
  }

  lemma CommitKeepsReply(cfg: Config, s: State, p: Pid, reply: Reply)
    requires Inv(cfg, s) && RepliedWith(s, p, reply) && HasReply(s.procs[p].at)
    ensures RepliedWith(DoCommitOutcome(s, p), p, reply)
  {
    CommitWrites(cfg, s, p);
  }

  lemma OwnStepKeeps(cfg: Config, s: State, step: Step, p: Pid, reply: Reply)
    requires Inv(cfg, s) && RepliedWith(s, p, reply) && !s.procs[p].at.PayDone? && Actor(step) == Some(p)
    requires p in Apply(cfg, s, step).attempts && Apply(cfg, s, step).attempts[p] == s.attempts[p]
    requires !(step.CommitOutcome? && HasReply(s.procs[p].at))
    ensures RepliedWith(Apply(cfg, s, step), p, reply)
  {
    if HasReply(s.procs[p].at) {
      ReplyStays(cfg, s, step, p);
    } else {
      ReturnsRow(cfg, s, step, p);
    }
  }

  lemma {:induction false} ReplyKeptRun(cfg: Config, s: State, steps: seq<Step>, p: Pid, reply: Reply)
    requires Inv(cfg, s) && RepliedWith(s, p, reply)
    ensures RepliedWith(Run(cfg, s, steps), p, reply)
    decreases |steps|
  {
    if steps != [] {
      var front := steps[..|steps| - 1];
      ReplyKeptRun(cfg, s, front, p, reply);
      RunKeeps(cfg, s, front);
      ReplyKept(cfg, Run(cfg, s, front), steps[|steps| - 1], p, reply);
    }
  }

  lemma RepliedSince(cfg: Config, steps: seq<Step>, k: nat, p: Pid, reply: Reply)
    requires RepliesAt(cfg, steps, k, p, reply)
    ensures RepliedWith(Run(cfg, EMPTY, steps), p, reply)
  {
    ReplyGivenAt(cfg, steps, k, p, reply);
    RepliedOn(cfg, steps, k, p, reply);
  }

  lemma RepliedOn(cfg: Config, steps: seq<Step>, k: nat, p: Pid, reply: Reply)
    requires k < |steps| && RepliedWith(Run(cfg, EMPTY, steps[..k] + [steps[k]]), p, reply)
    ensures RepliedWith(Run(cfg, EMPTY, steps), p, reply)
  {
    RepliedFrom(cfg, steps[..k] + [steps[k]], steps[k + 1..], p, reply);
    assert steps[..k] + [steps[k]] + steps[k + 1..] == steps;
  }

  lemma ReplyGivenAt(cfg: Config, steps: seq<Step>, k: nat, p: Pid, reply: Reply)
    requires RepliesAt(cfg, steps, k, p, reply)
    ensures k < |steps| && RepliedWith(Run(cfg, EMPTY, steps[..k] + [steps[k]]), p, reply)
  {
    ReplyGivenBy(cfg, steps[..k], steps[k], p, reply);
  }

  lemma RepliedFrom(cfg: Config, first: seq<Step>, more: seq<Step>, p: Pid, reply: Reply)
    requires RepliedWith(Run(cfg, EMPTY, first), p, reply)
    ensures RepliedWith(Run(cfg, EMPTY, first + more), p, reply)
  {
    Reachable(cfg, first);
    RunConcat(cfg, EMPTY, first, more);
    ReplyKeptRun(cfg, Run(cfg, EMPTY, first), more, p, reply);
  }

  /** The reply a call gets decides for good, on every continuation: if an error, its attempt
      stays pending, whatever the provider did; and if the call returns, it returns its attempt
      as the reply made it, with the reference, the refusal's code, or the error's. */
  lemma ReplyDecides(cfg: Config, steps: seq<Step>, s: State, k: nat, p: Pid, reply: Reply)
    requires Reaches(cfg, EMPTY, steps, s) && RepliesAt(cfg, steps, k, p, reply)
    ensures RepliedWith(s, p, reply)
    ensures reply.Lost? ==> s.attempts[p].status == PENDING
    ensures s.procs[p].at.PayDone? && s.procs[p].at.result.Returned? ==>
              s.procs[p].at.result.attempt == p && RowMatches(s.attempts[p], reply)
  {
    RepliedSince(cfg, steps, k, p, reply);
    assert Run(cfg, EMPTY, steps) == s;
  }

  lemma ReplyGivenBy(cfg: Config, front: seq<Step>, step: Step, p: Pid, reply: Reply)
    requires RepliesNow(Run(cfg, EMPTY, front), step, p, reply)
    ensures RepliedWith(Run(cfg, EMPTY, front + [step]), p, reply)
  {
    Reachable(cfg, front);
    ReplyGiven(cfg, Run(cfg, EMPTY, front), step, p, reply);
    assert (front + [step])[..|front|] == front;
  }

  /******* Every outcome had its reply *******/

  ghost predicate GotReply(cfg: Config, steps: seq<Step>, p: Pid, reply: Reply) {
    exists k: nat :: RepliesAt(cfg, steps, k, p, reply)
  }

  lemma GotReplyExtends(cfg: Config, front: seq<Step>, step: Step, p: Pid, reply: Reply)
    requires GotReply(cfg, front, p, reply)
    ensures GotReply(cfg, front + [step], p, reply)
  {
    var k: nat :| RepliesAt(cfg, front, k, p, reply);
    assert (front + [step])[..k] == front[..k];
    assert RepliesAt(cfg, front + [step], k, p, reply);
  }

  /** A call that has a reply it did not have before got it in this step. */
  lemma NewReply(cfg: Config, s: State, step: Step, p: Pid)
    requires Inv(cfg, s) && IsPay(Apply(cfg, s, step), p) && HasReply(Apply(cfg, s, step).procs[p].at)
    ensures IsPay(s, p)
    ensures || (HasReply(s.procs[p].at) && s.procs[p].at.reply == Apply(cfg, s, step).procs[p].at.reply)
            || RepliesNow(s, step, p, Apply(cfg, s, step).procs[p].at.reply)
  {
    RequestStep(cfg, s, step, p);
    if p !in s.procs || s.procs[p] != Apply(cfg, s, step).procs[p] { ReplyChanged(cfg, s, step, p); }
  }

  lemma ReplyChanged(cfg: Config, s: State, step: Step, p: Pid)
    requires Inv(cfg, s) && IsPay(Apply(cfg, s, step), p) && HasReply(Apply(cfg, s, step).procs[p].at)
    requires Actor(step) == Some(p) && !(p in s.procs && s.procs[p] == Apply(cfg, s, step).procs[p])
    ensures IsPay(s, p)
    ensures || (HasReply(s.procs[p].at) && s.procs[p].at.reply == Apply(cfg, s, step).procs[p].at.reply)
            || RepliesNow(s, step, p, Apply(cfg, s, step).procs[p].at.reply)
  {
    if step.ReplyArrives? || step.ReplyLost? {
      ReplyIsNew(cfg, s, step);
    } else if step.CommitOutcome? {
      CommitWrites(cfg, s, p);
    } else if IsPay(s, p) && HasReply(s.procs[p].at) {
      ReplyStays(cfg, s, step, p);
    } else {
      NoReplyYet(cfg, s, step);
    }
  }

  lemma ReplyIsNew(cfg: Config, s: State, step: Step)
    requires Inv(cfg, s) && (step.ReplyArrives? || step.ReplyLost?) && Apply(cfg, s, step) != s
    ensures IsPay(s, step.p) && IsPay(Apply(cfg, s, step), step.p) && HasReply(Apply(cfg, s, step).procs[step.p].at)
    ensures RepliesNow(s, step, step.p, Apply(cfg, s, step).procs[step.p].at.reply)
  {
    if IsPay(s, step.p) { PayFacts(cfg, s, step.p); }
  }

  ghost predicate Unanswered(s: State, p: Pid) {
    IsPay(s, p) && !HasReply(s.procs[p].at)
  }

  lemma NoReplyYet(cfg: Config, s: State, step: Step)
    requires Actor(step).Some? && !step.ReplyArrives? && !step.ReplyLost? && !step.CommitOutcome?
    requires !(IsPay(s, step.p) && HasReply(s.procs[step.p].at))
    ensures !(IsPay(Apply(cfg, s, step), step.p) && HasReply(Apply(cfg, s, step).procs[step.p].at))
  {
    if IsPay(s, step.p) {
      UnansweredStays(cfg, s, step);
    } else {
      NoReplyElsewhere(cfg, s, step);
    }
  }

  lemma UnansweredStays(cfg: Config, s: State, step: Step)
    requires Actor(step).Some? && !step.ReplyArrives? && !step.ReplyLost? && !step.CommitOutcome?
    requires Unanswered(s, step.p)
    ensures Unanswered(Apply(cfg, s, step), step.p)
  {
    match step
    case CacheLookup(p) => UnansweredByLookup(cfg, s, p);
    case RefetchWinner(p) => UnansweredByRefetch(cfg, s, p);
    case LockInvoice(p) => UnansweredByLock(s, p);
    case InsertAttempt(p, report) => UnansweredByInsert(s, p, report);
    case CommitReservation(p) => UnansweredByReservation(cfg, s, p);
    case SendCharge(p) => UnansweredBySending(s, p);
    case FlushOutcome(_) | RelockInvoice(_, _) | EnqueueOutcome(_) | RefreshAttempt(_) | Abort(_) =>
      UnansweredAfter(cfg, s, step);
    case _ => OtherStepsPass(cfg, s, step);
  }

  lemma UnansweredByLookup(cfg: Config, s: State, p: Pid)
    requires Unanswered(s, p)
    ensures Unanswered(DoCacheLookup(cfg, s, p), p)
  {}

  lemma UnansweredByRefetch(cfg: Config, s: State, p: Pid)
    requires Unanswered(s, p)
    ensures Unanswered(DoRefetchWinner(cfg, s, p), p)
  {}

  lemma UnansweredByLock(s: State, p: Pid)
    requires Unanswered(s, p)
    ensures Unanswered(DoLockInvoice(s, p), p)
  {}

  lemma UnansweredByInsert(s: State, p: Pid, report: Report)
    requires Unanswered(s, p)
    ensures Unanswered(DoInsertAttempt(s, p, report), p)
  {}

  lemma UnansweredByReservation(cfg: Config, s: State, p: Pid)
    requires Unanswered(s, p)
    ensures Unanswered(DoCommitReservation(cfg, s, p), p)
  {}

  lemma UnansweredBySending(s: State, p: Pid)
    requires Unanswered(s, p)
    ensures Unanswered(DoSendCharge(s, p), p)
  {}

  lemma UnansweredAfter(cfg: Config, s: State, step: Step)
    requires step.FlushOutcome? || step.RelockInvoice? || step.EnqueueOutcome? || step.RefreshAttempt? || step.Abort?
    requires Unanswered(s, step.p)
    ensures Unanswered(Apply(cfg, s, step), step.p)
  {}

  lemma NoReplyElsewhere(cfg: Config, s: State, step: Step)
    requires Actor(step).Some? && !IsPay(s, step.p)
    ensures !(IsPay(Apply(cfg, s, step), step.p) && HasReply(Apply(cfg, s, step).procs[step.p].at))
  {
    if step.StartPay? || step.StartMove? || step.StartCreate? {
    } else if step.ReadMove? || step.WriteMove? || step.CommitMove? || step.Abort? {
    } else if step.EnqueueCreate? || step.CommitCreate? {
    } else {
      CallStays(cfg, s, step);
    }
  }

  lemma {:induction false} RepliesGot(cfg: Config, steps: seq<Step>, p: Pid)
    ensures var s := Run(cfg, EMPTY, steps);
            IsPay(s, p) && HasReply(s.procs[p].at) ==> GotReply(cfg, steps, p, s.procs[p].at.reply)
    decreases |steps|
  {
    if steps != [] {
      var front, step := steps[..|steps| - 1], steps[|steps| - 1];
      var s, s' := Run(cfg, EMPTY, front), Run(cfg, EMPTY, steps);
      assert steps == front + [step];
      RepliesGot(cfg, front, p);
      Reachable(cfg, front);
      if IsPay(s', p) && HasReply(s'.procs[p].at) {
        NewReply(cfg, s, step, p);
        if RepliesNow(s, step, p, s'.procs[p].at.reply) {
          assert RepliesAt(cfg, steps, |front|, p, s'.procs[p].at.reply);
        } else {
          GotReplyExtends(cfg, front, step, p, s'.procs[p].at.reply);
        }
      }
    }
  }

  /** Untouched since its reservation, or as a reply that its call got makes it. */
  ghost predicate Explained(cfg: Config, steps: seq<Step>, row: Attempt, a: Pid) {
    (row.status == PENDING && row.failureCode.None?) ||
    exists reply :: GotReply(cfg, steps, a, reply) && RowMatches(row, reply)
  }

  /** No attempt is resolved without the provider's answer: a succeeded one got an approval with
      the reference it shows, a failed one a refusal with its code, and one that shows an error's
      code got that error. */
  lemma {:induction false} OutcomesHaveReplies(cfg: Config, steps: seq<Step>, a: Pid)
    ensures var s := Run(cfg, EMPTY, steps);
            a in s.attempts ==> Explained(cfg, steps, s.attempts[a], a)
    decreases |steps|
  {
    if steps != [] {
      var front, step := steps[..|steps| - 1], steps[|steps| - 1];
      var s, s' := Run(cfg, EMPTY, front), Run(cfg, EMPTY, steps);
      assert steps == front + [step];
      OutcomesHaveReplies(cfg, front, a);
      Reachable(cfg, front);
      if a in s'.attempts {
        if a in s.attempts && s'.attempts[a] == s.attempts[a] {
          ExplainedExtends(cfg, front, step, s.attempts[a], a);
        } else {
          RowWritten(cfg, s, step, a);
          RepliesGot(cfg, front, a);
          if HasReply(s.procs[a].at) { GotReplyExtends(cfg, front, step, a, s.procs[a].at.reply); }
        }
      }
    }
  }

  lemma ExplainedExtends(cfg: Config, front: seq<Step>, step: Step, row: Attempt, a: Pid)
    requires Explained(cfg, front, row, a)
    ensures Explained(cfg, front + [step], row, a)
  {
    if !(row.status == PENDING && row.failureCode.None?) {
      var reply :| GotReply(cfg, front, a, reply) && RowMatches(row, reply);
      GotReplyExtends(cfg, front, step, a, reply);
    }
  }

  /******* Every success had its second look *******/

  /** The call holds the invoice again and goes on to pay it. */
  predicate SettlesNext(pc: PayPc) {
    pc.Relocked? || (pc.Enqueued? && pc.reply.Approved?)
  }

  /** Step k locks the invoice again for call p, and finds it open; or it may not have looked. */
  ghost predicate RechecksAt(cfg: Config, steps: seq<Step>, k: nat, p: Pid) {
    k < |steps| && RechecksNow(cfg, Run(cfg, EMPTY, steps[..k]), steps[k], p)
  }

  ghost predicate RechecksNow(cfg: Config, s: State, step: Step, p: Pid) {
    && step.RelockInvoice? && step.p == p && IsPay(s, p) && s.procs[p].at.Flushed? && s.procs[p].at.reply.Approved?
    && var i := s.procs[p].order.invoice;
       i in s.invoices && i !in s.locks && (s.invoices[i].state == OPEN || (step.stale && !cfg.freshReread))
  }

  ghost predicate Rechecked(cfg: Config, steps: seq<Step>, p: Pid) {
    exists k: nat :: RechecksAt(cfg, steps, k, p)
  }

  lemma RecheckedExtends(cfg: Config, front: seq<Step>, step: Step, p: Pid)
    requires Rechecked(cfg, front, p)
    ensures Rechecked(cfg, front + [step], p)
  {
    var k: nat :| RechecksAt(cfg, front, k, p);
    assert (front + [step])[..k] == front[..k];
    assert RechecksAt(cfg, front + [step], k, p);
  }

  lemma NewlySettles(cfg: Config, s: State, step: Step, p: Pid)
    requires Inv(cfg, s) && IsPay(Apply(cfg, s, step), p) && SettlesNext(Apply(cfg, s, step).procs[p].at)
    ensures IsPay(s, p) && (SettlesNext(s.procs[p].at) || RechecksNow(cfg, s, step, p))
  {
    NewReply(cfg, s, step, p);
    RequestStep(cfg, s, step, p);
    if s.procs[p] != Apply(cfg, s, step).procs[p] {
      if step.FlushOutcome? || step.RelockInvoice? || step.EnqueueOutcome? || step.Abort? {
        RecheckSettles(cfg, s, step);
      } else if step.ReplyArrives? || step.ReplyLost? {
        ReplyIsFirst(cfg, s, step);
      } else if step.CommitOutcome? {
        CommitWrites(cfg, s, p);
      } else if HasReply(s.procs[p].at) {
        ReplyPasses(cfg, s, step);
      }
    }
  }

  lemma ReplyIsFirst(cfg: Config, s: State, step: Step)
    requires (step.ReplyArrives? || step.ReplyLost?) && IsPay(s, step.p)
    ensures IsPay(Apply(cfg, s, step), step.p)
    ensures SettlesNext(Apply(cfg, s, step).procs[step.p].at) ==> SettlesNext(s.procs[step.p].at)
  {}

  lemma ReplyPasses(cfg: Config, s: State, step: Step)
    requires IsPay(s, Actor(step).GetOr(0)) && Actor(step).Some? && HasReply(s.procs[step.p].at)
    requires !step.FlushOutcome? && !step.RelockInvoice? && !step.EnqueueOutcome? && !step.Abort?
    requires !step.CommitOutcome?
    ensures Apply(cfg, s, step) == s
  {
    if step.StartPay? || step.StartMove? || step.ReadMove? || step.WriteMove? || step.CommitMove?
       || step.StartCreate? || step.EnqueueCreate? || step.CommitCreate? {
      OtherStepsPass(cfg, s, step);
    } else if !step.RefreshAttempt? {
      EarlierStepsPass(cfg, s, step);
    }
  }

  lemma RecheckSettles(cfg: Config, s: State, step: Step)
    requires step.FlushOutcome? || step.RelockInvoice? || step.EnqueueOutcome? || step.Abort?
    requires IsPay(s, step.p)
    ensures IsPay(Apply(cfg, s, step), step.p)
    ensures SettlesNext(Apply(cfg, s, step).procs[step.p].at) ==>
              SettlesNext(s.procs[step.p].at) || RechecksNow(cfg, s, step, step.p)
  {}

  lemma {:induction false} SettlersRechecked(cfg: Config, steps: seq<Step>, p: Pid)
    ensures var s := Run(cfg, EMPTY, steps);
            IsPay(s, p) && SettlesNext(s.procs[p].at) ==> Rechecked(cfg, steps, p)
    decreases |steps|
  {
    if steps != [] {
      var front, step := steps[..|steps| - 1], steps[|steps| - 1];
      var s, s' := Run(cfg, EMPTY, front), Run(cfg, EMPTY, steps);
      assert steps == front + [step];
      SettlersRechecked(cfg, front, p);
      Reachable(cfg, front);
      if IsPay(s', p) && SettlesNext(s'.procs[p].at) {
        NewlySettles(cfg, s, step, p);
        if RechecksNow(cfg, s, step, p) {
          assert RechecksAt(cfg, steps, |front|, p);
        } else {
          RecheckedExtends(cfg, front, step, p);
        }
      }
    }
  }

  /** No attempt succeeds unless its call locked the invoice a second time and found it open
      then; only a session that does not refresh its copy may pay without having looked. */
  lemma {:induction false} SuccessWasRechecked(cfg: Config, steps: seq<Step>, a: Pid)
    ensures var s := Run(cfg, EMPTY, steps);
            a in s.attempts && s.attempts[a].status == SUCCEEDED ==> Rechecked(cfg, steps, a)
    decreases |steps|
  {
    if steps != [] {
      var front, step := steps[..|steps| - 1], steps[|steps| - 1];
      var s, s' := Run(cfg, EMPTY, front), Run(cfg, EMPTY, steps);
      assert steps == front + [step];
      SuccessWasRechecked(cfg, front, a);
      Reachable(cfg, front);
      if a in s'.attempts && s'.attempts[a].status == SUCCEEDED {
        if !(a in s.attempts && s.attempts[a].status == SUCCEEDED) {
          SuccessWriter(cfg, s, step, s'.attempts[a].invoice, a);
          SettlersRechecked(cfg, front, a);
        }
        RecheckedExtends(cfg, front, step, a);
      }
    }
  }
}
