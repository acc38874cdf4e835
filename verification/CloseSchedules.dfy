/** The schedules on which void and uncollectible behave for one invoice: none of them is
    between its read and its commit beside another one, or beside a payment that has made
    its reservation. Nothing here asks the deployment for anything: each flag of the
    configuration only spares one of these conditions. */
module CloseSchedules {
  import opened InvoiceStates
  import opened PaymentProtocol
  import opened ProtocolInvariant
  import opened ProtocolFrames
  import opened FinalizeSchedules

  ghost predicate HasState(s: State, i: Pid, state: InvoiceState) {
    i in s.invoices && s.invoices[i].state == state
  }

  /** Call c has reserved invoice i and not yet committed an outcome. */
  ghost predicate Paying(s: State, c: Pid, i: Pid) {
    IsPay(s, c) && s.procs[c].order.invoice == i && OwnPending(TablesOf(s), c) && !Ended(s.procs[c].at)
  }

  ghost predicate OneClose(s: State, i: Pid) {
    forall p, q :: Closing(s, p, i) && Closing(s, q, i) ==> p == q
  }

  ghost predicate PayingAlone(s: State, i: Pid) {
    forall p, c :: Closing(s, p, i) ==> !Paying(s, c, i)
  }

  ghost predicate AlwaysOneClose(cfg: Config, steps: seq<Step>, i: Pid) {
    forall k :: 0 <= k <= |steps| ==> OneClose(Run(cfg, EMPTY, steps[..k]), i)
  }

  ghost predicate AlwaysPayingAlone(cfg: Config, steps: seq<Step>, i: Pid) {
    forall k :: 0 <= k <= |steps| ==> PayingAlone(Run(cfg, EMPTY, steps[..k]), i)
  }

  /** No two finalizes of the invoice overlap, and no payment of it overlaps a void or an
      uncollectible, unless these are atomic. */
  ghost predicate PaymentsApart(cfg: Config, steps: seq<Step>, i: Pid) {
    && FinalizesApart(cfg, steps, i)
    && (cfg.atomicClose || AlwaysPayingAlone(cfg, steps, i))
  }

  /** No two requests that write the state of the invoice overlap: not two finalizes, not two
      of void and uncollectible, and none of these beside a payment. Atomic transitions may
      overlap each other, and with fresh re-reads also a payment. */
  ghost predicate WritersApart(cfg: Config, steps: seq<Step>, i: Pid) {
    && FinalizesApart(cfg, steps, i)
    && (cfg.atomicClose || AlwaysOneClose(cfg, steps, i))
    && ((cfg.atomicClose && cfg.freshReread) || AlwaysPayingAlone(cfg, steps, i))
  }

  lemma OneCloseBefore(cfg: Config, steps: seq<Step>, front: seq<Step>, i: Pid)
    requires AlwaysOneClose(cfg, steps, i) && front <= steps
    ensures AlwaysOneClose(cfg, front, i) && OneClose(Run(cfg, EMPTY, front), i)
  {
    forall k | 0 <= k <= |front| ensures OneClose(Run(cfg, EMPTY, front[..k]), i) {
      assert front[..k] == steps[..k];
    }
    assert steps[..|front|] == front;
  }

  lemma PayingAloneBefore(cfg: Config, steps: seq<Step>, front: seq<Step>, i: Pid)
    requires AlwaysPayingAlone(cfg, steps, i) && front <= steps
    ensures AlwaysPayingAlone(cfg, front, i) && PayingAlone(Run(cfg, EMPTY, front), i)
  {
    forall k | 0 <= k <= |front| ensures PayingAlone(Run(cfg, EMPTY, front[..k]), i) {
      assert front[..k] == steps[..k];
    }
    assert steps[..|front|] == front;
  }

  /** A call whose commit pays the invoice is paying it. */
  lemma PayerPaying(cfg: Config, s: State, c: Pid, i: Pid)
    requires Inv(cfg, s) && PaysNow(s, c, i)
    ensures Paying(s, c, i)
  {
    PayFacts(cfg, s, c);
  }

  /** Who changes the state of an invoice, and which state it finds. */
  lemma ChangedBy(cfg: Config, s: State, step: Step, i: Pid)
    requires Inv(cfg, s) && DraftsMatch(cfg, s, i) && i in s.invoices
    requires !HasState(Apply(cfg, s, step), i, s.invoices[i].state)
    ensures || (step.CommitOutcome? && PaysNow(s, step.p, i) && HasState(Apply(cfg, s, step), i, PAID))
            || (step.CommitMove? && HasState(s, i, DRAFT) && HasState(Apply(cfg, s, step), i, OPEN))
            || (step.CommitMove? && ClosesNow(cfg, s, step.p, i) && Closed(Apply(cfg, s, step), i))
  {
    StateWriter(cfg, s, step, i);
    if step.CommitMove? && WroteMove(s, step.p, i) { Overwrites(cfg, s, step.p, i); }
  }

  ghost predicate Closed(s: State, i: Pid) {
    HasState(s, i, VOID) || HasState(s, i, UNCOLLECTIBLE)
  }

  /** The next commit of transition p voids invoice i or writes it off. */
  ghost predicate ClosesNow(cfg: Config, s: State, p: Pid, i: Pid) {
    WroteMove(s, p, i) && Closing(s, p, i) && i in s.invoices && (cfg.atomicClose ==> s.invoices[i].state == OPEN)
  }

  /******* A paid invoice stays paid *******/

  /** Every success shows as a paid invoice, and no transition is about to hide it. */
  ghost predicate ShownPaid(cfg: Config, s: State, i: Pid) {
    && (forall a :: PaidBy(s.attempts, i, a) ==> HasState(s, i, PAID))
    && (cfg.atomicClose || forall p, a :: Closing(s, p, i) ==> !PaidBy(s.attempts, i, a))
  }

  lemma SuccessShows(cfg: Config, s: State, step: Step, i: Pid, a: Pid)
    requires Inv(cfg, s) && Single(cfg, s, i) && ShownPaid(cfg, s, i) && PaidBy(Apply(cfg, s, step).attempts, i, a)
    ensures HasState(Apply(cfg, s, step), i, PAID)
  {
    if !PaidBy(s.attempts, i, a) {
      SuccessWriter(cfg, s, step, i, a);
    } else {
      StepGrows(cfg, s, step);
      if !HasState(Apply(cfg, s, step), i, PAID) { ChangedBy(cfg, s, step, i); }
    }
  }

  lemma NoneHidden(cfg: Config, s: State, step: Step, i: Pid, p: Pid, a: Pid)
    requires Inv(cfg, s) && ShownPaid(cfg, s, i) && !cfg.atomicClose && PayingAlone(s, i)
    requires Closing(Apply(cfg, s, step), p, i)
    ensures !PaidBy(Apply(cfg, s, step).attempts, i, a)
  {
    RequestStep(cfg, s, step, p);
    if InFlight(s, p) {
      assert Closing(s, p, i);
      if PaidBy(Apply(cfg, s, step).attempts, i, a) {
        SuccessWriter(cfg, s, step, i, a);
        PayerPaying(cfg, s, a, i);
      }
    } else {
      TakesFlight(cfg, s, step, p);
    }
  }

  lemma ShownPaidKept(cfg: Config, s: State, step: Step, i: Pid)
    requires Inv(cfg, s) && Single(cfg, s, i) && ShownPaid(cfg, s, i) && (cfg.atomicClose || PayingAlone(s, i))
    ensures ShownPaid(cfg, Apply(cfg, s, step), i)
  {
    var s' := Apply(cfg, s, step);
    forall a | PaidBy(s'.attempts, i, a) ensures HasState(s', i, PAID) {
      SuccessShows(cfg, s, step, i, a);
    }
    if !cfg.atomicClose {
      forall p, a | Closing(s', p, i) ensures !PaidBy(s'.attempts, i, a) { NoneHidden(cfg, s, step, i, p, a); }
    }
  }

  lemma {:induction false} RunsShownPaid(cfg: Config, steps: seq<Step>, i: Pid)
    requires PaymentsApart(cfg, steps, i)
    ensures ShownPaid(cfg, Run(cfg, EMPTY, steps), i)
    decreases |steps|
  {
    if steps != [] {
      var front, step := steps[..|steps| - 1], steps[|steps| - 1];
      ApartBefore(cfg, steps, front, i);
      if !cfg.atomicClose { PayingAloneBefore(cfg, steps, front, i); }
      RunsShownPaid(cfg, front, i);
      RunsSingle(cfg, front, i);
      Reachable(cfg, front);
      ShownPaidKept(cfg, Run(cfg, EMPTY, front), step, i);
    }
  }

  /******* Writes follow the table *******/

  /** A close in flight and a payment in progress both still find the invoice open, where
      they are not going to look again. */
  ghost predicate StillFits(cfg: Config, s: State, i: Pid) {
    && (cfg.atomicClose || forall p :: Closing(s, p, i) ==> HasState(s, i, OPEN))
    && (cfg.freshReread || forall c :: Paying(s, c, i) ==> HasState(s, i, OPEN))
  }

  lemma CloseFits(cfg: Config, s: State, step: Step, i: Pid, p: Pid)
    requires Inv(cfg, s) && DraftsMatch(cfg, s, i) && StillFits(cfg, s, i)
    requires !cfg.atomicClose && OneClose(s, i) && PayingAlone(s, i) && Closing(Apply(cfg, s, step), p, i)
    ensures HasState(Apply(cfg, s, step), i, OPEN)
  {
    RequestStep(cfg, s, step, p);
    if InFlight(s, p) {
      assert Closing(s, p, i);
      StepGrows(cfg, s, step);
      if !HasState(Apply(cfg, s, step), i, OPEN) {
        ChangedBy(cfg, s, step, i);
        if step.CommitOutcome? {
          PayerPaying(cfg, s, step.p, i);
        } else {
          assert Closing(s, step.p, i);
          CommitLands(s, p);
        }
      }
    } else {
      TakesFlight(cfg, s, step, p);
    }
  }

  lemma PaymentFits(cfg: Config, s: State, step: Step, i: Pid, c: Pid)
    requires Inv(cfg, s) && DraftsMatch(cfg, s, i) && StillFits(cfg, s, i)
    requires !cfg.freshReread && PayingAlone(s, i) && Paying(Apply(cfg, s, step), c, i)
    ensures HasState(Apply(cfg, s, step), i, OPEN)
  {
    var s' := Apply(cfg, s, step);
    RequestStep(cfg, s, step, c);
    StepGrows(cfg, s, step);
    if Paying(s, c, i) {
      if !HasState(s', i, OPEN) {
        ChangedBy(cfg, s, step, i);
        if step.CommitOutcome? { PayerDone(cfg, s, step.p, i, c); }
      }
    } else {
      StartsPaying(cfg, s, step, i, c);
    }
  }

  /** The payment that settles the invoice is the one in progress, and is then over. */
  lemma PayerDone(cfg: Config, s: State, p: Pid, i: Pid, c: Pid)
    requires Inv(cfg, s) && PaysNow(s, p, i) && Paying(s, c, i)
    ensures c == p && !Paying(DoCommitOutcome(s, p), c, i)
  {
    PayerPaying(cfg, s, p, i);
    RowFacts(cfg, s, p);
    RowFacts(cfg, s, c);
    assert Holds(cfg, s, ExclusionClause);
  }

  /** A payment starts with its reservation, on an open invoice. */
  lemma StartsPaying(cfg: Config, s: State, step: Step, i: Pid, c: Pid)
    requires Inv(cfg, s) && !Paying(s, c, i) && Paying(Apply(cfg, s, step), c, i)
    ensures Apply(cfg, s, step).invoices == s.invoices && HasState(s, i, OPEN)
  {
    RequestStep(cfg, s, step, c);
    StepGrows(cfg, s, step);
    if OwnPending(TablesOf(s), c) { RowFacts(cfg, s, c); }
    AttemptWriter(cfg, s, step, c);
    PayFacts(cfg, s, c);
    if step.CommitMove? || step.CommitOutcome? || step.CommitCreate? {
      Reserved(cfg, s, step, c);
    } else {
      InvoicesKept(cfg, s, step);
    }
  }

  /** Only a reservation inserts an attempt. */
  lemma Reserved(cfg: Config, s: State, step: Step, c: Pid)
    requires step.CommitMove? || step.CommitOutcome? || step.CommitCreate?
    requires c !in s.attempts
    ensures c !in Apply(cfg, s, step).attempts
  {}

  lemma StillFitsKept(cfg: Config, s: State, step: Step, i: Pid)
    requires Inv(cfg, s) && DraftsMatch(cfg, s, i) && StillFits(cfg, s, i)
    requires cfg.atomicClose || OneClose(s, i)
    requires (cfg.atomicClose && cfg.freshReread) || PayingAlone(s, i)
    ensures StillFits(cfg, Apply(cfg, s, step), i)
  {
    var s' := Apply(cfg, s, step);
    if !cfg.atomicClose {
      forall p | Closing(s', p, i) ensures HasState(s', i, OPEN) {
        CloseFits(cfg, s, step, i, p);
      }
    }
    if !cfg.freshReread {
      forall c | Paying(s', c, i) ensures HasState(s', i, OPEN) {
        PaymentFits(cfg, s, step, i, c);
      }
    }
  }

  lemma WritersBefore(cfg: Config, steps: seq<Step>, front: seq<Step>, i: Pid)
    requires WritersApart(cfg, steps, i) && front <= steps
    ensures WritersApart(cfg, front, i)
    ensures cfg.atomicClose || OneClose(Run(cfg, EMPTY, front), i)
    ensures (cfg.atomicClose && cfg.freshReread) || PayingAlone(Run(cfg, EMPTY, front), i)
  {
    ApartBefore(cfg, steps, front, i);
    if !cfg.atomicClose { OneCloseBefore(cfg, steps, front, i); }
    if !(cfg.atomicClose && cfg.freshReread) { PayingAloneBefore(cfg, steps, front, i); }
  }

  lemma {:induction false} RunsFit(cfg: Config, steps: seq<Step>, i: Pid)
    requires WritersApart(cfg, steps, i)
    ensures Single(cfg, Run(cfg, EMPTY, steps), i) && StillFits(cfg, Run(cfg, EMPTY, steps), i)
    decreases |steps|
  {
    RunsSingle(cfg, steps, i);
    if steps != [] {
      var front, step := steps[..|steps| - 1], steps[|steps| - 1];
      WritersBefore(cfg, steps, front, i);
      RunsFit(cfg, front, i);
      Reachable(cfg, front);
      StillFitsKept(cfg, Run(cfg, EMPTY, front), step, i);
    }
  }
}
