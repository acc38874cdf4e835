/** Safety of the payment protocol over every schedule. */
module PaymentSafety {
  import opened InvoiceStates
  import opened Options
  import opened FailureCodes
  import opened PaymentProtocol
  import opened ProtocolInvariant
  import opened ProtocolFrames
  import opened FinalizeSchedules

  /******* No double charge *******/

  ghost predicate ChargedOn(s: State, i: Pid, c: Pid) {
    c in s.psp && s.psp[c].stage == Charged && IsPay(s, c) && s.procs[c].order.invoice == i
  }

  /** The calls for which the provider took money against this invoice. */
  ghost function Charges(s: State, i: Pid): set<Pid> {
    set c | c in s.psp && ChargedOn(s, i, c)
  }

  ghost function LiveAttempts(s: State, i: Pid): set<Pid> {
    set a | a in s.attempts && LiveOn(s, i, a)
  }

  lemma TwoAttempts(cfg: Config, s: State, a: Pid, b: Pid)
    requires Inv(cfg, s) && a in s.attempts && b in s.attempts && s.attempts[a].invoice == s.attempts[b].invoice
    ensures a != b ==>
              && s.attempts[a].key != s.attempts[b].key
              && (s.attempts[a].status != PENDING || s.attempts[b].status != PENDING)
  {
    assert Holds(cfg, s, ExclusionClause);
  }

  lemma AtMostOne(xs: set<Pid>)
    requires forall x, y :: x in xs && y in xs ==> x == y
    ensures |xs| <= 1
  {
    if xs != {} {
      var x :| x in xs;
      assert xs == {x};
    }
  }

  /** At most one attempt of an invoice has not failed, whatever the second locking read
      returns, if no two finalizes of it overlap. */
  lemma OneLiveAttempt(cfg: Config, steps: seq<Step>, s: State, i: Pid)
    requires FinalizesApart(cfg, steps, i) && Reaches(cfg, EMPTY, steps, s)
    ensures |LiveAttempts(s, i)| <= 1
  {
    SingleReached(cfg, steps, s, i);
    AtMostOne(LiveAttempts(s, i));
  }

  /** What the tables say about a charge the provider made. */
  lemma ChargeIsRecorded(cfg: Config, s: State, i: Pid, c: Pid)
    requires Inv(cfg, s) && ChargedOn(s, i, c)
    ensures LiveOn(s, i, c)
    ensures i in s.invoices && s.psp[c].amountCents == s.attempts[c].amountCents == s.invoices[i].totalCents
  {
    ChargeFacts(cfg, s, c);
    RowFacts(cfg, s, c);
  }

  /** However calls, retries, voids, lost replies and crashes interleave, the provider takes
      money at most once per invoice, if no two finalizes of it overlap. */
  lemma NoDoubleCharge(cfg: Config, steps: seq<Step>, s: State, i: Pid)
    requires FinalizesApart(cfg, steps, i) && Reaches(cfg, EMPTY, steps, s)
    ensures |Charges(s, i)| <= 1
  {
    SingleReached(cfg, steps, s, i);
    forall c | c in Charges(s, i) ensures LiveOn(s, i, c) { ChargeIsRecorded(cfg, s, i, c); }
    AtMostOne(Charges(s, i));
  }

  /** Then a charge is never forgotten: its invoice has exactly one attempt that did not
      fail, it is the charged one, and it carries the charged amount. */
  lemma ChargeNeverForgotten(cfg: Config, steps: seq<Step>, s: State, i: Pid, c: Pid)
    requires FinalizesApart(cfg, steps, i) && Reaches(cfg, EMPTY, steps, s) && ChargedOn(s, i, c)
    ensures LiveAttempts(s, i) == {c} && s.attempts[c].amountCents == s.psp[c].amountCents
  {
    SingleReached(cfg, steps, s, i);
    ChargeIsRecorded(cfg, s, i, c);
  }

  /** An attempt recorded as failed was not charged and never will be. */
  lemma FailedNeverCharged(cfg: Config, s: State, steps: seq<Step>, s': State, a: Pid)
    requires Inv(cfg, s) && a in s.attempts && s.attempts[a].status == FAILED && Reaches(cfg, s, steps, s')
    ensures a in s'.psp && s'.psp[a].stage.Declined?
  {
    RowFacts(cfg, s, a);
    DecisionsFinal(cfg, s, steps, a);
    assert Run(cfg, s, steps) == s';
  }

  /******* Unknown outcomes absorb *******/

  /** The call will write no more and has left its attempt pending. */
  ghost predicate Unresolved(s: State, i: Pid, c: Pid) {
    LiveOn(s, i, c) && s.attempts[c].status == PENDING && IsPay(s, c) && Ended(s.procs[c].at)
  }

  ghost function AttemptsOf(s: State, i: Pid): map<Pid, Attempt> {
    map a | a in s.attempts && s.attempts[a].invoice == i :: s.attempts[a]
  }

  ghost function CallsFor(s: State, i: Pid): set<Pid> {
    set c | c in s.psp && IsPay(s, c) && s.procs[c].order.invoice == i
  }

  /** No other call of the invoice is past its reservation, or can make one. */
  lemma OthersShutOut(cfg: Config, s: State, i: Pid, c: Pid, q: Pid)
    requires Inv(cfg, s) && Unresolved(s, i, c) && IsPay(s, q) && s.procs[q].order.invoice == i
    ensures !OwnPending(TablesOf(s), q) || q == c
    ensures !s.procs[q].at.Inserted?
    ensures PendingOn(s, i)
  {
    PayFacts(cfg, s, q);
    if OwnPending(TablesOf(s), q) {
      RowFacts(cfg, s, q);
      TwoAttempts(cfg, s, c, q);
    }
  }

  lemma RowUnchanged(cfg: Config, s: State, step: Step, i: Pid, c: Pid, a: Pid)
    requires Inv(cfg, s) && Unresolved(s, i, c)
    ensures a in AttemptsOf(Apply(cfg, s, step), i) <==> a in AttemptsOf(s, i)
    ensures a in AttemptsOf(s, i) ==> AttemptsOf(Apply(cfg, s, step), i)[a] == AttemptsOf(s, i)[a]
  {
    var s' := Apply(cfg, s, step);
    StepGrows(cfg, s, step);
    if a in s'.attempts && (a !in s.attempts || s'.attempts[a] != s.attempts[a]) {
      AttemptWriter(cfg, s, step, a);
      if s.procs[a].order.invoice == i { OthersShutOut(cfg, s, i, c, a); }
    }
  }

  lemma NoNewCall(cfg: Config, s: State, step: Step, i: Pid, c: Pid, q: Pid)
    requires Inv(cfg, s) && Unresolved(s, i, c)
    ensures q in CallsFor(Apply(cfg, s, step), i) <==> q in CallsFor(s, i)
  {
    RequestStep(cfg, s, step, q);
    if q in s.psp {
      ChargeFacts(cfg, s, q);
      DecisionStep(cfg, s, step, q);
    } else if q in Apply(cfg, s, step).psp {
      ChargeSender(cfg, s, step, q);
      PayFacts(cfg, s, q);
      if s.procs[q].order.invoice == i { OthersShutOut(cfg, s, i, c, q); }
    }
  }

  lemma RowsUnchanged(cfg: Config, s: State, step: Step, i: Pid, c: Pid)
    requires Inv(cfg, s) && Unresolved(s, i, c)
    ensures AttemptsOf(Apply(cfg, s, step), i) == AttemptsOf(s, i)
  {
    forall a: Pid
      ensures a in AttemptsOf(Apply(cfg, s, step), i) <==> a in AttemptsOf(s, i)
      ensures a in AttemptsOf(s, i) ==> AttemptsOf(Apply(cfg, s, step), i)[a] == AttemptsOf(s, i)[a]
    {
      RowUnchanged(cfg, s, step, i, c, a);
    }
  }

  lemma CallsUnchanged(cfg: Config, s: State, step: Step, i: Pid, c: Pid)
    requires Inv(cfg, s) && Unresolved(s, i, c)
    ensures CallsFor(Apply(cfg, s, step), i) == CallsFor(s, i)
  {
    forall q: Pid ensures q in CallsFor(Apply(cfg, s, step), i) <==> q in CallsFor(s, i) {
      NoNewCall(cfg, s, step, i, c, q);
    }
  }

  lemma UnresolvedStep(cfg: Config, s: State, step: Step, i: Pid, c: Pid)
    requires Inv(cfg, s) && Unresolved(s, i, c)
    ensures Unresolved(Apply(cfg, s, step), i, c)
    ensures AttemptsOf(Apply(cfg, s, step), i) == AttemptsOf(s, i)
    ensures CallsFor(Apply(cfg, s, step), i) == CallsFor(s, i)
  {
    RowsUnchanged(cfg, s, step, i, c);
    CallsUnchanged(cfg, s, step, i, c);
    assert c in AttemptsOf(s, i);
    RequestStep(cfg, s, step, c);
  }

  /** Once a call has ended with its attempt pending, the invoice takes no new
      attempt and makes no new call to the provider, no row of it changes, and it
      is never paid. */
  lemma {:induction false} UnknownAbsorbs(cfg: Config, s: State, steps: seq<Step>, i: Pid, c: Pid)
    requires Inv(cfg, s) && Unresolved(s, i, c)
    ensures Unresolved(Run(cfg, s, steps), i, c)
    ensures AttemptsOf(Run(cfg, s, steps), i) == AttemptsOf(s, i)
    ensures CallsFor(Run(cfg, s, steps), i) == CallsFor(s, i)
    ensures i in Run(cfg, s, steps).invoices && Run(cfg, s, steps).invoices[i].state != PAID
    decreases |steps|
  {
    if steps == [] {
      NotPaid(cfg, s, i, c);
    } else {
      var front := steps[..|steps| - 1];
      UnknownAbsorbs(cfg, s, front, i, c);
      RunKeeps(cfg, s, front);
      UnresolvedStep(cfg, Run(cfg, s, front), steps[|steps| - 1], i, c);
      RunKeeps(cfg, s, steps);
      NotPaid(cfg, Run(cfg, s, steps), i, c);
    }
  }

  /** A call that returned its own attempt as pending left it so, with the code of the provider's error. */
  lemma PendingCarriesCode(cfg: Config, steps: seq<Step>, s: State, p: Pid)
    requires Reaches(cfg, EMPTY, steps, s) && ReturnedTo(s, p, p, PENDING)
    ensures p in s.attempts && s.attempts[p].status == PENDING
    ensures s.attempts[p].failureCode == Some("psp_timeout") || s.attempts[p].failureCode == Some("psp_unavailable")
  {
    ReachedInv(cfg, steps, s);
    PayFacts(cfg, s, p);
    RowFacts(cfg, s, p);
    FailureCodesOfErrors();
  }

  /** A paid invoice has no pending attempt. */
  lemma NotPaid(cfg: Config, s: State, i: Pid, c: Pid)
    requires Inv(cfg, s) && LiveOn(s, i, c) && s.attempts[c].status == PENDING
    ensures i in s.invoices && s.invoices[i].state != PAID
  {
    RowFacts(cfg, s, c);
    assert Holds(cfg, s, UnpaidClause);
  }

  /******* Idempotency *******/

  ghost predicate ReturnedTo(s: State, p: Pid, a: Pid, status: PaymentStatus) {
    IsPay(s, p) && s.procs[p].at.PayDone? && s.procs[p].at.result.Returned?
    && s.procs[p].at.result.attempt == a && s.procs[p].at.result.status == status
  }

  ghost predicate SameKey(s: State, p: Pid, q: Pid) {
    IsPay(s, p) && IsPay(s, q)
    && s.procs[p].order.invoice == s.procs[q].order.invoice && s.procs[p].order.key == s.procs[q].order.key
  }

  /** Per (invoice, key) there is one attempt row: every call that returns an attempt
      returns it and was made with the body that row was made with, and final statuses agree. */
  lemma OneRowPerKey(cfg: Config, steps: seq<Step>, s: State, p: Pid, q: Pid, a: Pid, b: Pid, st: PaymentStatus,
                     st': PaymentStatus)
    requires Reaches(cfg, EMPTY, steps, s)
    requires SameKey(s, p, q) && ReturnedTo(s, p, a, st) && ReturnedTo(s, q, b, st')
    ensures a == b && a in s.attempts
    ensures s.attempts[a].invoice == s.procs[p].order.invoice && s.attempts[a].key == s.procs[p].order.key
    ensures s.attempts[a].requestHash == cfg.hash(s.procs[p].order.cardToken) == cfg.hash(s.procs[q].order.cardToken)
    ensures st == PENDING || st' == PENDING || st == st'
  {
    ReachedInv(cfg, steps, s);
    PayFacts(cfg, s, p);
    PayFacts(cfg, s, q);
    TwoAttempts(cfg, s, a, b);
  }

  /** At most one of the calls with one key reaches the provider. */
  lemma OneProviderCallPerKey(cfg: Config, steps: seq<Step>, s: State, c: Pid, d: Pid)
    requires Reaches(cfg, EMPTY, steps, s)
    requires SameKey(s, c, d) && c in s.psp && d in s.psp
    ensures c == d
  {
    ReachedInv(cfg, steps, s);
    ChargeFacts(cfg, s, c);
    ChargeFacts(cfg, s, d);
    RowFacts(cfg, s, c);
    RowFacts(cfg, s, d);
    TwoAttempts(cfg, s, c, d);
  }

  /** Successive observations of one key never go back: after a call has seen a
      final status, every later call that returns the attempt sees that status. */
  lemma {:induction false} FinalStatusSticks(cfg: Config, s: State, steps: seq<Step>, a: Pid, q: Pid, st: PaymentStatus)
    requires Inv(cfg, s)
    requires a in s.attempts && s.attempts[a].status != PENDING
    requires !ReturnedTo(s, q, a, st) && ReturnedTo(Run(cfg, s, steps), q, a, st)
    ensures st == s.attempts[a].status
    decreases |steps|
  {
    var front := steps[..|steps| - 1];
    var m := Run(cfg, s, front);
    RunKeeps(cfg, s, front);
    if ReturnedTo(m, q, a, st) {
      FinalStatusSticks(cfg, s, front, a, q, st);
    } else {
      RequestStep(cfg, m, steps[|steps| - 1], q);
      RunGrows(cfg, s, steps);
    }
  }
}
