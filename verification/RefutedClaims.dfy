/** Claims about process_payment that its comments suggest and that do not hold, each
    with a schedule that shows it, and what holds instead on every schedule. */
module RefutedClaims {
  import opened InvoiceStates
  import opened PaymentProtocol
  import opened ProtocolInvariant
  import opened PaymentSafety
  import opened PaymentScenarios

  /******* "A concurrent retry with the same key gets the cached row" *******/

  /** It does when its lookup comes after the row was committed. */
  lemma LookupDecides(cfg: Config, s: State, p: Pid, a: Pid)
    requires Inv(cfg, s) && IsPay(s, p) && s.procs[p].at.Started? && Matches(s, a, s.procs[p].order)
    ensures Apply(cfg, s, CacheLookup(p)) ==
            Finish(s, p, if s.attempts[a].requestHash == cfg.hash(s.procs[p].order.cardToken)
                         then Returned(a, s.attempts[a].status, true) else IdempotencyConflict)
  {
    assert KeyTaken(s, s.procs[p].order);
    TwoAttempts(cfg, s, a, FindAttempt(s, s.procs[p].order).value);
  }

  /** What is left of a call whose lookup missed, up to the second lookup. */
  function RetrySteps(p: Pid, report: Report): seq<Step> {
    [LockInvoice(p), InsertAttempt(p, report), RefetchWinner(p)]
  }

  /** The locking read finds the business's own invoice, open and unlocked. */
  ghost predicate GetsLock(s: State, o: Order) {
    && o.invoice in s.invoices && s.invoices[o.invoice].business == o.business
    && s.invoices[o.invoice].state == OPEN && o.invoice !in s.locks
  }

  /** When its lookup came first, these statements still give it the cached row exactly if
      they lock an open invoice, the insert need not wait, and what the database names is the
      reused key (not another pending attempt, if there is one too), of the same body. */
  lemma MissedRetryServedIff(cfg: Config, s: State, p: Pid, a: Pid, report: Report)
    requires Inv(cfg, s) && IsPay(s, p) && s.procs[p].at.CacheMissed? && Matches(s, a, s.procs[p].order)
    ensures var o, s' := s.procs[p].order, Run(cfg, s, RetrySteps(p, report));
            ReturnedTo(s', p, a, s.attempts[a].status) <==>
            && GetsLock(s, o) && !Contended(s, o.invoice)
            && report.IdempotencyIndex? && s.attempts[a].requestHash == cfg.hash(o.cardToken)
  {
    RunThree(cfg, s, LockInvoice(p), InsertAttempt(p, report), RefetchWinner(p));
    if GetsLock(s, s.procs[p].order) {
      RetryInserts(cfg, s, DoLockInvoice(s, p), p, a, report);
    } else {
      RetryStops(cfg, s, p, a, report);
    }
  }

  lemma RetryStops(cfg: Config, s: State, p: Pid, a: Pid, report: Report)
    requires IsPay(s, p) && s.procs[p].at.CacheMissed? && !GetsLock(s, s.procs[p].order)
    requires a in s.attempts
    ensures !ReturnedTo(DoRefetchWinner(cfg, DoInsertAttempt(DoLockInvoice(s, p), p, report), p), p, a,
                        s.attempts[a].status)
  {
    var m := DoLockInvoice(s, p);
    assert IsPay(m, p) && (m.procs[p].at.CacheMissed? || (m.procs[p].at.PayDone? && !m.procs[p].at.result.Returned?));
    assert DoInsertAttempt(m, p, report) == m;
    assert DoRefetchWinner(cfg, m, p) == m;
  }

  lemma RunThree(cfg: Config, s: State, first: Step, second: Step, third: Step)
    ensures Run(cfg, s, [first, second, third]) == Apply(cfg, Apply(cfg, Apply(cfg, s, first), second), third)
  {
    RunFirst(cfg, s, first, [second] + [third]);
    RunFirst(cfg, Apply(cfg, s, first), second, [third]);
    RunOne(cfg, Apply(cfg, Apply(cfg, s, first), second), third);
    assert [first, second, third] == [first] + ([second] + [third]);
  }

  lemma RetryInserts(cfg: Config, s: State, m: State, p: Pid, a: Pid, report: Report)
    requires Inv(cfg, s) && IsPay(s, p) && s.procs[p].at.CacheMissed? && Matches(s, a, s.procs[p].order)
    requires GetsLock(s, s.procs[p].order) && m == DoLockInvoice(s, p)
    ensures ReturnedTo(DoRefetchWinner(cfg, DoInsertAttempt(m, p, report), p), p, a, s.attempts[a].status) <==>
            && !Contended(s, s.procs[p].order.invoice) && report.IdempotencyIndex?
            && s.attempts[a].requestHash == cfg.hash(s.procs[p].order.cardToken)
  {
    var o := s.procs[p].order;
    RowFacts(cfg, s, a);
    PayFacts(cfg, s, p);
    SameContention(s, m, p, o.invoice);
    assert Matches(m, a, o);
    var inserted := DoInsertAttempt(m, p, report);
    if inserted.procs[p].at.Conflicted? {
      assert Matches(inserted, a, o);
      TwoAttempts(cfg, s, a, FindAttempt(inserted, o).value);
    }
  }

  lemma SameContention(s: State, m: State, p: Pid, i: Pid)
    requires IsPay(s, p) && IsPay(m, p) && m.attempts == s.attempts && m.procs == s.procs[p := m.procs[p]]
    requires !Uncommitted(s.procs[p].at) && !Uncommitted(m.procs[p].at)
    ensures Contended(m, i) <==> Contended(s, i)
  {}

  /** A schedule on which it is not: then it is told that the invoice cannot be paid. */
  lemma RacingRetryRefused(cfg: Config, s: State, p: Pid, q: Pid, o: Order, ref: string)
    requires Payable(s, p, o) && p !in s.attempts && q !in s.procs && q !in s.attempts && q != p
    ensures var s' := Run(cfg, s, [StartPay(q, o), CacheLookup(q)] + PaySteps(p, o, ref) + [LockInvoice(q)]);
            && ReturnedTo(s', p, p, SUCCEEDED)
            && q in s'.procs && s'.procs[q] == Pay(o, PayDone(InvalidStateTransition))
  {
    var paid := PaidFrom(cfg, At(s, q, o, CacheMissed), p, o, ref);
    LookupThenPayment(cfg, s, p, q, o, ref);
    RunConcat(cfg, s, [StartPay(q, o), CacheLookup(q)] + PaySteps(p, o, ref), [LockInvoice(q)]);
    RunOne(cfg, paid, LockInvoice(q));
    LockRefused(cfg, paid, q, o);
  }

  lemma LookupThenPayment(cfg: Config, s: State, p: Pid, q: Pid, o: Order, ref: string)
    requires Payable(s, p, o) && p !in s.attempts && q !in s.procs && q !in s.attempts && q != p
    ensures Run(cfg, s, [StartPay(q, o), CacheLookup(q)] + PaySteps(p, o, ref)) ==
            PaidFrom(cfg, At(s, q, o, CacheMissed), p, o, ref)
  {
    var looked := At(s, q, o, CacheMissed);
    assert [StartPay(q, o), CacheLookup(q)] == [StartPay(q, o)] + [CacheLookup(q)];
    RunFirst(cfg, s, StartPay(q, o), [CacheLookup(q)]);
    RunOne(cfg, At(s, q, o, Started), CacheLookup(q));
    LookupMisses(cfg, s, q, o);
    StillPayableBeside(s, p, q, o);
    PayRuns(cfg, looked, p, o, ref);
    RunConcat(cfg, s, [StartPay(q, o), CacheLookup(q)], PaySteps(p, o, ref));
  }

  lemma StillPayableBeside(s: State, p: Pid, q: Pid, o: Order)
    requires Payable(s, p, o) && q !in s.procs && q !in s.attempts && q != p
    ensures Payable(At(s, q, o, CacheMissed), p, o)
  {
    AtSame(s, q, o, CacheMissed, s.locks);
  }

  lemma LockRefused(cfg: Config, s: State, q: Pid, o: Order)
    requires q in s.procs && s.procs[q] == Pay(o, CacheMissed)
    requires o.invoice in s.invoices && s.invoices[o.invoice].business == o.business && o.invoice !in s.locks
    requires s.invoices[o.invoice].state != OPEN
    ensures Apply(cfg, s, LockInvoice(q)) == At(s, q, o, PayDone(InvalidStateTransition))
  {}

  /******* "IdempotencyConflict means the key was used with a different body" *******/

  /** What an IdempotencyConflict means, on every schedule: the key belongs to a row made
      by a different body, or the invoice has nothing to pay. */
  lemma ConflictMeans(cfg: Config, steps: seq<Step>, s: State, p: Pid)
    requires Reaches(cfg, EMPTY, steps, s)
    requires IsPay(s, p) && s.procs[p].at == PayDone(IdempotencyConflict)
    ensures var o := s.procs[p].order;
            || (exists a :: Matches(s, a, o) && s.attempts[a].requestHash != cfg.hash(o.cardToken))
            || (o.invoice in s.invoices && s.invoices[o.invoice].totalCents == 0)
  {
    ReachedInv(cfg, steps, s);
    PayFacts(cfg, s, p);
    var o := s.procs[p].order;
    if NothingDue(TablesOf(s), o.invoice) {
      assert Holds(cfg, s, InvoicesClause);
    } else {
      var a :| RowOf(TablesOf(s).attempts, a, o) && s.attempts[a].requestHash != cfg.hash(o.cardToken);
      assert Matches(s, a, o);
    }
  }

  /** An open invoice over nothing, on which the key was never used. */
  ghost predicate OpenOverNothing(s: State, p: Pid, o: Order) {
    && p !in s.procs && p !in s.attempts && !KeyTaken(s, o)
    && o.invoice in s.invoices && o.invoice !in s.locks && s.invoices[o.invoice].business == o.business
    && s.invoices[o.invoice].state == OPEN && s.invoices[o.invoice].totalCents == 0
  }

  /** The second case happens: the first call ever on an open invoice over nothing is told that its key was reused. */
  lemma NothingDueConflicts(cfg: Config, s: State, p: Pid, o: Order)
    requires OpenOverNothing(s, p, o)
    ensures Run(cfg, s,
                [StartPay(p, o), CacheLookup(p), LockInvoice(p), InsertAttempt(p, PendingIndex), RefetchWinner(p)]) ==
            At(s, p, o, PayDone(IdempotencyConflict))
  {
    var held := At(s, p, o, LockedOpen(0)).(locks := s.locks[o.invoice := p]);
    var r4: seq<Step> := [RefetchWinner(p)];
    var r3 := [InsertAttempt(p, PendingIndex)] + r4;
    var r2 := [LockInvoice(p)] + r3;
    var r1 := [CacheLookup(p)] + r2;
    assert [StartPay(p, o), CacheLookup(p), LockInvoice(p), InsertAttempt(p, PendingIndex), RefetchWinner(p)] ==
      [StartPay(p, o)] + r1;
    RunFirst(cfg, s, StartPay(p, o), r1);
    RunFirst(cfg, At(s, p, o, Started), CacheLookup(p), r2);
    LookupMisses(cfg, s, p, o);
    RunFirst(cfg, At(s, p, o, CacheMissed), LockInvoice(p), r3);
    LockTaken(cfg, s, p, o);
    RunFirst(cfg, held, InsertAttempt(p, PendingIndex), r4);
    InsertRefused(cfg, s, p, o);
    RunOne(cfg, At(s, p, o, Conflicted), RefetchWinner(p));
    RefetchMisses(cfg, s, p, o);
  }

  lemma InsertRefused(cfg: Config, s: State, p: Pid, o: Order)
    requires o.invoice !in s.locks
    ensures Apply(cfg, At(s, p, o, LockedOpen(0)).(locks := s.locks[o.invoice := p]), InsertAttempt(p, PendingIndex)) ==
            At(s, p, o, Conflicted)
  {
    assert s.locks[o.invoice := p] - {o.invoice} == s.locks;
  }

  lemma RefetchMisses(cfg: Config, s: State, p: Pid, o: Order)
    requires p !in s.attempts && !KeyTaken(s, o)
    ensures Apply(cfg, At(s, p, o, Conflicted), RefetchWinner(p)) == At(s, p, o, PayDone(IdempotencyConflict))
  {
    AtSame(s, p, o, Conflicted, s.locks);
  }

  /** Invoices over nothing are those whose lines all cost nothing, which the checks on lines allow. */
  lemma {:induction false} NothingDueIff(items: seq<LineItem>)
    requires forall k :: 0 <= k < |items| ==> StorableLine(items[k])
    ensures LineTotal(items) >= 0
    ensures LineTotal(items) == 0 <==> forall k :: 0 <= k < |items| ==> items[k].unitAmountCents == 0
  {
    if items != [] {
      var front, last := items[..|items| - 1], items[|items| - 1];
      NothingDueIff(front);
      assert items == front + [last];
      assert last.quantity * last.unitAmountCents >= 0;
      assert last.quantity * last.unitAmountCents == 0 <==> last.unitAmountCents == 0;
      assert LineTotal(items) == LineTotal(front) + last.quantity * last.unitAmountCents;
    }
  }

  /** An invoice with nothing to pay has no attempt, is never PAID, and no call on it returns one. */
  lemma NothingDueNeverPaid(cfg: Config, steps: seq<Step>, s: State, i: Pid, p: Pid)
    requires Reaches(cfg, EMPTY, steps, s)
    requires i in s.invoices && s.invoices[i].totalCents == 0
    ensures AttemptsOf(s, i) == map[] && s.invoices[i].state != PAID
    ensures IsPay(s, p) && s.procs[p].order.invoice == i && s.procs[p].at.PayDone? ==> !s.procs[p].at.result.Returned?
  {
    ReachedInv(cfg, steps, s);
    forall a | a in s.attempts ensures s.attempts[a].invoice != i { RowFacts(cfg, s, a); }
    assert Holds(cfg, s, InvoicesClause);
    if IsPay(s, p) { PayFacts(cfg, s, p); }
  }
}
