/** Businesses do not reach into each other: who changes an invoice, an attempt or an endpoint,
    and what the requests of others leave alone. */
module Tenants {
  import opened PaymentProtocol
  import opened ProtocolInvariant
  import opened ProtocolFrames

  /** The business that made the request. */
  function Tenant(pr: Proc): BusinessId {
    match pr
    case Pay(o, _) => o.business
    case Move(b, _, _, _) => b
    case Create(b, _, _) => b
  }

  /** The step is a statement of an unfinished request of this business. */
  ghost predicate ActsFor(s: State, step: Step, b: BusinessId) {
    Actor(step).Some? && step.p in s.procs && Tenant(s.procs[step.p]) == b && !Finished(s.procs[step.p])
  }

  /** Only a request of the invoice's own business changes its state. */
  lemma StateChangedByOwner(cfg: Config, s: State, step: Step, i: Pid)
    requires Inv(cfg, s) && i in s.invoices
    ensures i in Apply(cfg, s, step).invoices
    ensures Apply(cfg, s, step).invoices[i] != s.invoices[i] ==> ActsFor(s, step, s.invoices[i].business)
  {
    StepGrows(cfg, s, step);
    StateWriter(cfg, s, step, i);
    if Apply(cfg, s, step).invoices[i] != s.invoices[i] {
      if step.CommitMove? {
        MoveFacts(cfg, s, step.p);
      } else {
        RowFacts(cfg, s, step.p);
      }
    }
  }

  /** Only a request of the invoice's own business makes or changes an attempt on it. */
  lemma AttemptChangedByOwner(cfg: Config, s: State, step: Step, a: Pid)
    requires Inv(cfg, s)
    requires a in Apply(cfg, s, step).attempts && (a !in s.attempts || Apply(cfg, s, step).attempts[a] != s.attempts[a])
    ensures var i := Apply(cfg, s, step).attempts[a].invoice;
            i in s.invoices && IsPay(s, a) && Tenant(s.procs[a]) == s.invoices[i].business && !Finished(s.procs[a])
  {
    AttemptWriter(cfg, s, step, a);
    PayFacts(cfg, s, a);
    if OwnPending(TablesOf(s), a) { RowFacts(cfg, s, a); }
  }

  /** All requests of the business have ended. */
  ghost predicate Inactive(s: State, b: BusinessId) {
    forall p :: p in s.procs && Tenant(s.procs[p]) == b ==> Finished(s.procs[p])
  }

  /** The step starts a request of the business. */
  predicate StartsFor(step: Step, b: BusinessId) {
    || (step.StartPay? && step.order.business == b)
    || (step.StartMove? && step.business == b)
    || (step.StartCreate? && step.business == b)
  }

  lemma NewRequest(cfg: Config, s: State, step: Step, p: Pid)
    requires Inv(cfg, s) && p !in s.procs && p in Apply(cfg, s, step).procs
    ensures StartsFor(step, Tenant(Apply(cfg, s, step).procs[p]))
  {
    RequestStep(cfg, s, step, p);
    if step.StartPay? || step.StartMove? || step.StartCreate? {
    } else if step.ReadMove? || step.WriteMove? || step.CommitMove? || step.Abort? {
      NoRequestByMove(cfg, s, step);
    } else if step.EnqueueCreate? || step.CommitCreate? {
      NoRequestByCreate(cfg, s, step);
    } else {
      CallStays(cfg, s, step);
    }
  }

  lemma NoRequestByMove(cfg: Config, s: State, step: Step)
    requires step.ReadMove? || step.WriteMove? || step.CommitMove? || step.Abort?
    requires step.p !in s.procs
    ensures Apply(cfg, s, step) == s
  {}

  lemma NoRequestByCreate(cfg: Config, s: State, step: Step)
    requires step.EnqueueCreate? || step.CommitCreate?
    requires step.p !in s.procs
    ensures Apply(cfg, s, step) == s
  {}

  lemma InactiveKept(cfg: Config, s: State, step: Step, b: BusinessId)
    requires Inv(cfg, s) && Inactive(s, b) && !StartsFor(step, b)
    ensures Inactive(Apply(cfg, s, step), b)
  {
    forall p | p in Apply(cfg, s, step).procs && Tenant(Apply(cfg, s, step).procs[p]) == b
      ensures Finished(Apply(cfg, s, step).procs[p])
    {
      if p in s.procs {
        RequestStep(cfg, s, step, p);
      } else {
        NewRequest(cfg, s, step, p);
      }
    }
  }

  ghost function InvoicesOf(s: State, b: BusinessId): map<Pid, Invoice> {
    map i | i in s.invoices && s.invoices[i].business == b :: s.invoices[i]
  }

  /** The attempts on invoices of the business. */
  ghost function PaymentsOf(s: State, b: BusinessId): map<Pid, Attempt> {
    map a | a in s.attempts && s.attempts[a].invoice in InvoicesOf(s, b) :: s.attempts[a]
  }

  /** A new invoice is its creating request's. */
  lemma NewInvoice(cfg: Config, s: State, step: Step, i: Pid)
    requires Inv(cfg, s) && i !in s.invoices && i in Apply(cfg, s, step).invoices
    ensures ActsFor(s, step, Apply(cfg, s, step).invoices[i].business)
  {
    if !step.CommitMove? && !step.CommitOutcome? && !step.CommitCreate? {
      InvoicesKept(cfg, s, step);
    } else if step.CommitOutcome? {
      NoInvoiceByCall(s, step.p);
    } else if step.CommitMove? {
      NoInvoiceByMove(s, step.p);
    }
  }

  lemma NoInvoiceByCall(s: State, p: Pid)
    ensures DoCommitOutcome(s, p).invoices.Keys == s.invoices.Keys
  {}

  lemma NoInvoiceByMove(s: State, p: Pid)
    ensures DoCommitMove(s, p).invoices.Keys == s.invoices.Keys
  {}

  lemma NothingOfTheirs(cfg: Config, s: State, step: Step, b: BusinessId)
    requires Inv(cfg, s) && Inactive(s, b)
    ensures InvoicesOf(Apply(cfg, s, step), b) == InvoicesOf(s, b)
  {
    var s' := Apply(cfg, s, step);
    forall i: Pid
      ensures i in InvoicesOf(s', b) <==> i in InvoicesOf(s, b)
      ensures i in InvoicesOf(s, b) ==> InvoicesOf(s', b)[i] == InvoicesOf(s, b)[i]
    {
      if i in s.invoices {
        StateChangedByOwner(cfg, s, step, i);
        StepGrows(cfg, s, step);
      } else if i in s'.invoices {
        NewInvoice(cfg, s, step, i);
      }
    }
  }

  /** An attempt on an invoice of the business is the same before and after. */
  ghost predicate SamePayment(s: State, s': State, b: BusinessId, a: Pid) {
    && (a in s'.attempts && s'.attempts[a].invoice in InvoicesOf(s, b) ==> a in s.attempts)
    && (a in s.attempts && s.attempts[a].invoice in InvoicesOf(s, b) ==>
          a in s'.attempts && s'.attempts[a] == s.attempts[a])
    && (a in s.attempts && a in s'.attempts ==> s'.attempts[a].invoice == s.attempts[a].invoice)
  }

  lemma PaymentKept(cfg: Config, s: State, step: Step, b: BusinessId, a: Pid)
    requires Inv(cfg, s) && Inactive(s, b)
    ensures SamePayment(s, Apply(cfg, s, step), b, a)
  {
    StepGrows(cfg, s, step);
    if a in Apply(cfg, s, step).attempts && (a !in s.attempts || Apply(cfg, s, step).attempts[a] != s.attempts[a]) {
      AttemptChangedByOwner(cfg, s, step, a);
    }
  }

  lemma SamePayments(s: State, s': State, b: BusinessId)
    requires InvoicesOf(s', b) == InvoicesOf(s, b) && forall a :: SamePayment(s, s', b, a)
    ensures PaymentsOf(s', b) == PaymentsOf(s, b)
  {
    forall a: Pid
      ensures a in PaymentsOf(s', b) <==> a in PaymentsOf(s, b)
      ensures a in PaymentsOf(s, b) ==> PaymentsOf(s', b)[a] == PaymentsOf(s, b)[a]
    {
      assert SamePayment(s, s', b, a);
    }
  }

  lemma NoPaymentOfTheirs(cfg: Config, s: State, step: Step, b: BusinessId)
    requires Inv(cfg, s) && Inactive(s, b)
    ensures PaymentsOf(Apply(cfg, s, step), b) == PaymentsOf(s, b)
  {
    NothingOfTheirs(cfg, s, step, b);
    forall a ensures SamePayment(s, Apply(cfg, s, step), b, a) { PaymentKept(cfg, s, step, b, a); }
    SamePayments(s, Apply(cfg, s, step), b);
  }

  /** Whatever other businesses, the provider and the endpoints do: while a business has no
      request in flight and starts none, its invoices and the attempts on them stay as they are. */
  lemma {:induction false} TenantsApart(cfg: Config, s: State, steps: seq<Step>, b: BusinessId)
    requires Inv(cfg, s) && Inactive(s, b) && forall k :: 0 <= k < |steps| ==> !StartsFor(steps[k], b)
    ensures Inactive(Run(cfg, s, steps), b)
    ensures InvoicesOf(Run(cfg, s, steps), b) == InvoicesOf(s, b)
    ensures PaymentsOf(Run(cfg, s, steps), b) == PaymentsOf(s, b)
    decreases |steps|
  {
    if steps != [] {
      var front, step := steps[..|steps| - 1], steps[|steps| - 1];
      TenantsApart(cfg, s, front, b);
      RunKeeps(cfg, s, front);
      InactiveKept(cfg, Run(cfg, s, front), step, b);
      NothingOfTheirs(cfg, Run(cfg, s, front), step, b);
      NoPaymentOfTheirs(cfg, Run(cfg, s, front), step, b);
    }
  }
}
