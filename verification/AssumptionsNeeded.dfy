/** Each assumption of the safety theorems is necessary: the theorems hold for a
    deployment exactly if it makes them. */
module AssumptionsNeeded {
  import opened InvoiceStates
  import opened PaymentProtocol
  import opened PaymentSafety
  import opened CloseSchedules
  import opened InvoiceLifecycle
  import opened MoneyConservation
  import opened Sums
  import opened PaymentScenarios

  /******* Three schedules *******/

  lemma StillPayable(s: State, m: Pid, b: BusinessId, target: InvoiceState, mv: MovePc, p: Pid, o: Order)
    requires Payable(s, p, o) && m != p && (m in s.procs ==> s.procs[m].Move?)
    ensures Payable(Moving(s, m, b, o.invoice, target, mv), p, o)
  {
    var s' := Moving(s, m, b, o.invoice, target, mv);
    forall a ensures Matches(s', a, o) <==> Matches(s, a, o) {}
  }

  ghost function StaleReadSteps(p: Pid, o: Order, m: Pid, ref: string): seq<Step> {
    ReserveSteps(p, o) + ChargeSteps(p, ref) + ReadSteps(m, o.business, o.invoice, VOID) + WriteSteps(m)
  }

  /** A void between the two commits, then a stale re-read: the void invoice becomes PAID. */
  lemma StaleReadOverwritesVoid(cfg: Config, s: State, p: Pid, o: Order, m: Pid, ref: string)
    requires !cfg.freshReread && Payable(s, p, o) && p !in s.attempts && m !in s.procs && m != p
    ensures var s1 := Run(cfg, s, StaleReadSteps(p, o, m, ref));
            o.invoice in s1.invoices && s1.invoices[o.invoice].state == VOID
    ensures var s2 := Run(cfg, s, StaleReadSteps(p, o, m, ref) + CloseSteps(p, true));
            o.invoice in s2.invoices && s2.invoices[o.invoice].state == PAID
  {
    var i, b := o.invoice, o.business;
    var r := Reserving(cfg, s, p, o);
    var f := Charging(r, p, o, ref);
    var v := Moving(f, m, b, i, VOID, MoveRead(OPEN));
    var w := WithState(Moving(v, m, b, i, VOID, MoveDone(MoveApplied)), i, VOID);
    ReserveRuns(cfg, s, p, o);
    ChargeRuns(cfg, r, p, o, ref);
    ReadRuns(cfg, f, m, b, i, VOID);
    WriteRuns(cfg, v, m, b, i, VOID, OPEN);
    RunConcat(cfg, s, ReserveSteps(p, o), ChargeSteps(p, ref));
    RunConcat(cfg, s, ReserveSteps(p, o) + ChargeSteps(p, ref), ReadSteps(m, b, i, VOID));
    RunConcat(cfg, s, ReserveSteps(p, o) + ChargeSteps(p, ref) + ReadSteps(m, b, i, VOID), WriteSteps(m));
    RunConcat(cfg, s, StaleReadSteps(p, o, m, ref), CloseSteps(p, true));
    assert CanClose(cfg, w, p, o, ref, true);
    CloseRuns(cfg, w, p, o, ref, true);
  }

  ghost function LateVoidSteps(p: Pid, o: Order, m: Pid, ref: string): seq<Step> {
    ReadSteps(m, o.business, o.invoice, VOID) + PaySteps(p, o, ref)
  }

  /** A void that read OPEN before the payment and writes after it: the PAID invoice becomes VOID. */
  lemma LateVoidOverwritesPaid(cfg: Config, s: State, p: Pid, o: Order, m: Pid, ref: string)
    requires !cfg.atomicClose && Payable(s, p, o) && p !in s.attempts && m !in s.procs && m != p
    ensures var s1 := Run(cfg, s, LateVoidSteps(p, o, m, ref));
            o.invoice in s1.invoices && s1.invoices[o.invoice].state == PAID
    ensures var s2 := Run(cfg, s, LateVoidSteps(p, o, m, ref) + WriteSteps(m));
            && o.invoice in s2.invoices && s2.invoices[o.invoice].state == VOID
            && s2.invoices[o.invoice].business == o.business
            && p in s2.attempts && s2.attempts[p].invoice == o.invoice && s2.attempts[p].status == SUCCEEDED
  {
    var i, b := o.invoice, o.business;
    var v := Moving(s, m, b, i, VOID, MoveRead(OPEN));
    ReadRuns(cfg, s, m, b, i, VOID);
    StillPayable(s, m, b, VOID, MoveRead(OPEN), p, o);
    PayRuns(cfg, v, p, o, ref);
    var paid := PaidFrom(cfg, v, p, o, ref);
    RunConcat(cfg, s, ReadSteps(m, b, i, VOID), PaySteps(p, o, ref));
    RunConcat(cfg, s, LateVoidSteps(p, o, m, ref), WriteSteps(m));
    assert CanWrite(cfg, paid, m, b, i, VOID, OPEN);
    WriteRuns(cfg, paid, m, b, i, VOID, OPEN);
  }

  /******* Reachable starting points *******/

  const ITEMS: seq<LineItem> := [LineItem(1, 100)]

  const FIRST_PAYMENT: Order := Order(0, 0, "card", "first")
  const SECOND_PAYMENT: Order := Order(0, 0, "card", "second")

  /** One draft invoice over 100 cents, and nothing else. */
  const DRAFTED: State :=
    State(map[0 := Invoice(0, ITEMS, 100, DRAFT)], map[], multiset{}, map[], map[],
          map[0 := Create(0, ITEMS, CreateDone(Created))], map[])

  const DRAFT_STEPS: seq<Step> := [StartCreate(0, 0, true, ITEMS), EnqueueCreate(0), CommitCreate(0)]

  function Drafting(cr: CreatePc): State {
    EMPTY.(procs := map[0 := Create(0, ITEMS, cr)])
  }

  lemma DraftRuns(cfg: Config)
    ensures Run(cfg, EMPTY, DRAFT_STEPS) == DRAFTED
  {
    var rest: seq<Step> := [CommitCreate(0)];
    assert DRAFT_STEPS == [StartCreate(0, 0, true, ITEMS)] + ([EnqueueCreate(0)] + rest);
    RunFirst(cfg, EMPTY, StartCreate(0, 0, true, ITEMS), [EnqueueCreate(0)] + rest);
    RunFirst(cfg, Drafting(Building), EnqueueCreate(0), rest);
    DraftEnqueues(cfg);
    RunOne(cfg, Drafting(CreateEnqueued(multiset{})), CommitCreate(0));
    DraftCommits(cfg);
  }

  lemma DraftEnqueues(cfg: Config)
    ensures Apply(cfg, Drafting(Building), EnqueueCreate(0)) == Drafting(CreateEnqueued(multiset{}))
  {
    var s := Drafting(Building);
    DraftTotal();
    assert FanOut(s, 0, InvoiceCreated(0), CreatedPayload(0, 100)) == multiset{};
    assert s.procs[0 := Create(0, ITEMS, CreateEnqueued(multiset{}))] == Drafting(CreateEnqueued(multiset{})).procs;
  }

  lemma DraftCommits(cfg: Config)
    ensures Apply(cfg, Drafting(CreateEnqueued(multiset{})), CommitCreate(0)) == DRAFTED
  {
    DraftTotal();
    assert Drafting(CreateEnqueued(multiset{})).procs[0 := Create(0, ITEMS, CreateDone(Created))] == DRAFTED.procs;
  }

  lemma DraftTotal()
    ensures LineTotal(ITEMS) == 100 && Storable(ITEMS)
  {
    assert ITEMS[..0] == [];
  }

  /** The draft, finalized by request 1. */
  ghost function Opened(): State {
    WithState(Moving(DRAFTED, 1, 0, 0, OPEN, MoveDone(MoveApplied)), 0, OPEN)
  }

  ghost const OPEN_STEPS: seq<Step> := DRAFT_STEPS + ReadSteps(1, 0, 0, OPEN) + WriteSteps(1)

  lemma OpenRuns(cfg: Config)
    ensures Run(cfg, EMPTY, OPEN_STEPS) == Opened()
    ensures Payable(Opened(), 3, FIRST_PAYMENT)
  {
    DraftRuns(cfg);
    ReadRuns(cfg, DRAFTED, 1, 0, 0, OPEN);
    var read := Moving(DRAFTED, 1, 0, 0, OPEN, MoveRead(DRAFT));
    WriteRuns(cfg, read, 1, 0, 0, OPEN, DRAFT);
    RunConcat(cfg, EMPTY, DRAFT_STEPS, ReadSteps(1, 0, 0, OPEN));
    RunConcat(cfg, EMPTY, DRAFT_STEPS + ReadSteps(1, 0, 0, OPEN), WriteSteps(1));
    assert read.procs[1 := Move(0, 0, OPEN, MoveDone(MoveApplied))] == Opened().procs;
  }

  /******* A stale finalize *******/

  /** Two finalizes have read the draft; the first has written. */
  ghost function OpenedOnce(): State {
    WithState(Moving(Moving(DRAFTED, 2, 0, 0, OPEN, MoveRead(DRAFT)), 1, 0, 0, OPEN, MoveDone(MoveApplied)),
              0, OPEN)
  }

  ghost const TWO_FINALIZES: seq<Step> :=
    DRAFT_STEPS + ReadSteps(1, 0, 0, OPEN) + ReadSteps(2, 0, 0, OPEN) + WriteSteps(1)

  lemma TwoFinalizesRun(cfg: Config)
    ensures Run(cfg, EMPTY, TWO_FINALIZES) == OpenedOnce()
    ensures Payable(OpenedOnce(), 3, FIRST_PAYMENT)
  {
    var r1 := Moving(DRAFTED, 1, 0, 0, OPEN, MoveRead(DRAFT));
    var r2 := Moving(r1, 2, 0, 0, OPEN, MoveRead(DRAFT));
    DraftRuns(cfg);
    ReadRuns(cfg, DRAFTED, 1, 0, 0, OPEN);
    ReadRuns(cfg, r1, 2, 0, 0, OPEN);
    WriteRuns(cfg, r2, 1, 0, 0, OPEN, DRAFT);
    RunConcat(cfg, EMPTY, DRAFT_STEPS, ReadSteps(1, 0, 0, OPEN));
    RunConcat(cfg, EMPTY, DRAFT_STEPS + ReadSteps(1, 0, 0, OPEN), ReadSteps(2, 0, 0, OPEN));
    RunConcat(cfg, EMPTY, DRAFT_STEPS + ReadSteps(1, 0, 0, OPEN) + ReadSteps(2, 0, 0, OPEN), WriteSteps(1));
    assert r2.procs[1 := Move(0, 0, OPEN, MoveDone(MoveApplied))] == OpenedOnce().procs;
  }

  ghost const STALE_FINALIZE: seq<Step> :=
    TWO_FINALIZES + PaySteps(3, FIRST_PAYMENT, "ref") + WriteSteps(2) + PaySteps(4, SECOND_PAYMENT, "ref")

  /** The second finalize wrote its stale read over the paid invoice. */
  ghost function Reopened(cfg: Config): State {
    WithState(Moving(PaidFrom(cfg, OpenedOnce(), 3, FIRST_PAYMENT, "ref"), 2, 0, 0, OPEN, MoveDone(MoveApplied)),
              0, OPEN)
  }

  lemma ReopeningRuns(cfg: Config)
    requires !cfg.atomicFinalize
    ensures Run(cfg, EMPTY, TWO_FINALIZES + PaySteps(3, FIRST_PAYMENT, "ref") + WriteSteps(2)) == Reopened(cfg)
  {
    var paid := PaidFrom(cfg, OpenedOnce(), 3, FIRST_PAYMENT, "ref");
    TwoFinalizesRun(cfg);
    PayRuns(cfg, OpenedOnce(), 3, FIRST_PAYMENT, "ref");
    assert CanWrite(cfg, paid, 2, 0, 0, OPEN, DRAFT);
    WriteRuns(cfg, paid, 2, 0, 0, OPEN, DRAFT);
    RunConcat(cfg, EMPTY, TWO_FINALIZES, PaySteps(3, FIRST_PAYMENT, "ref"));
    RunConcat(cfg, EMPTY, TWO_FINALIZES + PaySteps(3, FIRST_PAYMENT, "ref"), WriteSteps(2));
  }

  lemma ReopenedIsPayable(cfg: Config)
    ensures Payable(Reopened(cfg), 4, SECOND_PAYMENT)
  {
    var s := Reopened(cfg);
    forall a ensures a in s.attempts ==> a == 3 && s.attempts[a].status == SUCCEEDED && s.attempts[a].key == "first" {}
    assert forall a :: !Matches(s, a, SECOND_PAYMENT);
  }

  /** Two finalizes in flight: the second reopens the paid invoice and it is charged again. */
  lemma StaleFinalizeChargesTwice(cfg: Config)
    requires !cfg.atomicFinalize
    ensures |Charges(Run(cfg, EMPTY, STALE_FINALIZE), 0)| > 1
  {
    var reopening := TWO_FINALIZES + PaySteps(3, FIRST_PAYMENT, "ref") + WriteSteps(2);
    ReopeningRuns(cfg);
    ReopenedIsPayable(cfg);
    RunConcat(cfg, EMPTY, reopening, PaySteps(4, SECOND_PAYMENT, "ref"));
    ChargedTwice(cfg);
  }

  lemma ChargedTwice(cfg: Config)
    requires Payable(Reopened(cfg), 4, SECOND_PAYMENT)
    ensures |Charges(Run(cfg, Reopened(cfg), PaySteps(4, SECOND_PAYMENT, "ref")), 0)| > 1
  {
    var s := Run(cfg, Reopened(cfg), PaySteps(4, SECOND_PAYMENT, "ref"));
    UncontendedPaymentSucceeds(cfg, Reopened(cfg), 4, SECOND_PAYMENT, "ref");
    assert ChargedOn(s, 0, 3) && ChargedOn(s, 0, 4);
    Subset({3, 4}, Charges(s, 0));
  }

  lemma Subset(xs: set<Pid>, ys: set<Pid>)
    requires xs <= ys
    ensures |xs| <= |ys|
  {
    assert ys == xs + (ys - xs);
  }

  /******* The exact conditions *******/

  /** The provider takes money at most once per invoice on every schedule exactly if a
      finalize writes the state it read. */
  lemma SingleChargeIff(cfg: Config)
    ensures (forall steps, i :: |Charges(Run(cfg, EMPTY, steps), i)| <= 1) <==> cfg.atomicFinalize
  {
    if cfg.atomicFinalize {
      forall steps, i ensures |Charges(Run(cfg, EMPTY, steps), i)| <= 1 {
        NoDoubleCharge(cfg, steps, Run(cfg, EMPTY, steps), i);
      }
    } else {
      StaleFinalizeChargesTwice(cfg);
    }
  }

  /** Once an invoice is in this state, it is in this state for good, on every schedule. */
  ghost predicate StaysIn(cfg: Config, state: InvoiceState) {
    forall first, more, i :: HasState(Run(cfg, EMPTY, first), i, state) ==>
      HasState(Run(cfg, EMPTY, first + more), i, state)
  }

  ghost predicate Disciplined(cfg: Config) {
    cfg.atomicFinalize && cfg.atomicClose && cfg.freshReread
  }

  lemma DisciplineKeepsTerminal(cfg: Config, state: InvoiceState)
    requires Disciplined(cfg) && state in TERMINAL_STATES
    ensures StaysIn(cfg, state)
  {
    forall first, more, i | HasState(Run(cfg, EMPTY, first), i, state)
      ensures HasState(Run(cfg, EMPTY, first + more), i, state)
    {
      TerminalStatesStay(cfg, first, more, i);
    }
  }

  lemma StaleReadReopensVoid(cfg: Config)
    requires !cfg.freshReread
    ensures !StaysIn(cfg, VOID)
  {
    var void, close := StaleReadSteps(3, FIRST_PAYMENT, 2, "ref"), CloseSteps(3, true);
    OpenRuns(cfg);
    StaleReadOverwritesVoid(cfg, Opened(), 3, FIRST_PAYMENT, 2, "ref");
    RunConcat(cfg, EMPTY, OPEN_STEPS, void);
    RunConcat(cfg, EMPTY, OPEN_STEPS, void + close);
    assert OPEN_STEPS + (void + close) == (OPEN_STEPS + void) + close;
    assert HasState(Run(cfg, EMPTY, OPEN_STEPS + void), 0, VOID) &&
      !HasState(Run(cfg, EMPTY, (OPEN_STEPS + void) + close), 0, VOID);
  }

  lemma LateVoidUnpays(cfg: Config)
    requires !cfg.atomicClose
    ensures !StaysIn(cfg, PAID)
  {
    var paid := LateVoidSteps(3, FIRST_PAYMENT, 2, "ref");
    OpenRuns(cfg);
    LateVoidOverwritesPaid(cfg, Opened(), 3, FIRST_PAYMENT, 2, "ref");
    RunConcat(cfg, EMPTY, OPEN_STEPS, paid);
    RunConcat(cfg, EMPTY, OPEN_STEPS, paid + WriteSteps(2));
    assert OPEN_STEPS + (paid + WriteSteps(2)) == (OPEN_STEPS + paid) + WriteSteps(2);
    assert HasState(Run(cfg, EMPTY, OPEN_STEPS + paid), 0, PAID) &&
      !HasState(Run(cfg, EMPTY, (OPEN_STEPS + paid) + WriteSteps(2)), 0, PAID);
  }

  lemma StaleFinalizeUnpays(cfg: Config)
    requires !cfg.atomicFinalize
    ensures !StaysIn(cfg, PAID)
  {
    var paid := TWO_FINALIZES + PaySteps(3, FIRST_PAYMENT, "ref");
    TwoFinalizesRun(cfg);
    PayRuns(cfg, OpenedOnce(), 3, FIRST_PAYMENT, "ref");
    RunConcat(cfg, EMPTY, TWO_FINALIZES, PaySteps(3, FIRST_PAYMENT, "ref"));
    ReopeningRuns(cfg);
    assert HasState(Run(cfg, EMPTY, paid), 0, PAID) && !HasState(Run(cfg, EMPTY, paid + WriteSteps(2)), 0, PAID);
  }

  /** Terminal states are final on every schedule exactly if the re-read is fresh and
      every transition request writes the state it read. */
  lemma TerminalStatesStayIff(cfg: Config)
    ensures (forall state :: state in TERMINAL_STATES ==> StaysIn(cfg, state)) <==> Disciplined(cfg)
  {
    if Disciplined(cfg) {
      forall state | state in TERMINAL_STATES ensures StaysIn(cfg, state) { DisciplineKeepsTerminal(cfg, state); }
    } else if !cfg.atomicFinalize {
      StaleFinalizeUnpays(cfg);
    } else if !cfg.atomicClose {
      LateVoidUnpays(cfg);
    } else {
      StaleReadReopensVoid(cfg);
    }
  }

  /** Every business's books balance: what its invoices show as paid is what its attempts show as succeeded. */
  ghost predicate Balanced(cfg: Config, steps: seq<Step>, b: BusinessId) {
    Sum(PaidTotals(Run(cfg, EMPTY, steps), b)) == Sum(SucceededAmounts(Run(cfg, EMPTY, steps), b))
  }

  lemma LateVoidUnbalances(cfg: Config)
    requires !cfg.atomicClose
    ensures exists steps :: !Balanced(cfg, steps, 0)
  {
    var late := LateVoidSteps(3, FIRST_PAYMENT, 2, "ref") + WriteSteps(2);
    OpenRuns(cfg);
    LateVoidOverwritesPaid(cfg, Opened(), 3, FIRST_PAYMENT, 2, "ref");
    RunConcat(cfg, EMPTY, OPEN_STEPS, late);
    var s := Run(cfg, EMPTY, OPEN_STEPS + late);
    assert 3 in SucceededAmounts(s, 0) && !AlonePays(s, 0, 3);
    PaidEqualsSucceededIff(cfg, OPEN_STEPS + late, s, 0);
    assert !Balanced(cfg, OPEN_STEPS + late, 0);
  }

  lemma StaleFinalizeUnbalances(cfg: Config)
    requires !cfg.atomicFinalize
    ensures exists steps :: !Balanced(cfg, steps, 0)
  {
    var reopening := TWO_FINALIZES + PaySteps(3, FIRST_PAYMENT, "ref") + WriteSteps(2);
    ReopeningRuns(cfg);
    var s := Reopened(cfg);
    assert 3 in SucceededAmounts(s, 0) && !AlonePays(s, 0, 3);
    PaidEqualsSucceededIff(cfg, reopening, s, 0);
    assert !Balanced(cfg, reopening, 0);
  }

  /** The books balance on every schedule exactly if all transitions write the state they read. */
  lemma BalancedIff(cfg: Config)
    ensures (forall steps, b :: Balanced(cfg, steps, b)) <==> cfg.atomicFinalize && cfg.atomicClose
  {
    if cfg.atomicFinalize && cfg.atomicClose {
      forall steps, b ensures Balanced(cfg, steps, b) {
        PaymentsApartBalance(cfg, steps, Run(cfg, EMPTY, steps), b);
      }
    } else if !cfg.atomicClose {
      LateVoidUnbalances(cfg);
    } else {
      StaleFinalizeUnbalances(cfg);
    }
  }
}
