/** The interleaved two-commit protocol refines a ledger with one account per
    invoice, in which a payment is one reservation and one settlement. */
module PaymentLedger {
  import opened InvoiceStates
  import opened Options
  import opened PaymentProtocol
  import opened ProtocolInvariant
  import opened FinalizeSchedules
  import opened PaymentSafety

  datatype Account =
    | Idle
    | Held(call: Pid, amountCents: int)      // reserved, the call is running
    | Unknown(call: Pid, amountCents: int)   // reserved, the call has ended without an outcome
    | Settled(call: Pid, amountCents: int)

  datatype Act =
    | Reserve(call: Pid, amountCents: int)
    | Settle(call: Pid) | Decline(call: Pid) | Lose(call: Pid) | Stutter

  predicate CanDo(acc: Account, act: Act) {
    match act
    case Reserve(_, _) => acc.Idle?
    case Settle(_) | Decline(_) | Lose(_) => acc.Held? && acc.call == act.call
    case Stutter => true
  }

  function Next(acc: Account, act: Act): Account
    requires CanDo(acc, act)
  {
    match act
    case Reserve(c, amount) => Held(c, amount)
    case Settle(_) => Settled(acc.call, acc.amountCents)
    case Decline(_) => Idle
    case Lose(_) => Unknown(acc.call, acc.amountCents)
    case Stutter => acc
  }

  /******* The abstraction *******/

  ghost function AccountAt(s: State, a: Pid): Account
    requires a in s.attempts && IsPay(s, a)
  {
    if s.attempts[a].status == SUCCEEDED then Settled(a, s.attempts[a].amountCents)
    else if Ended(s.procs[a].at) then Unknown(a, s.attempts[a].amountCents)
    else Held(a, s.attempts[a].amountCents)
  }

  /** The account of an invoice, read off its one attempt that has not failed. */
  ghost function AccountOf(s: State, i: Pid): Account {
    if exists a :: LiveOn(s, i, a) && IsPay(s, a) then var a :| LiveOn(s, i, a) && IsPay(s, a); AccountAt(s, a)
    else Idle
  }

  lemma AccountIs(cfg: Config, s: State, i: Pid, a: Pid)
    requires Inv(cfg, s) && OneLive(s, i) && LiveOn(s, i, a)
    ensures IsPay(s, a) && AccountOf(s, i) == AccountAt(s, a)
  {
    RowFacts(cfg, s, a);
  }

  /** Which ledger act a protocol step performs on the account of invoice i. */
  ghost function ActOf(cfg: Config, s: State, step: Step, i: Pid): Act {
    match step
    case CommitReservation(p) =>
      if IsPay(s, p) && s.procs[p].at.Inserted? && s.procs[p].order.invoice == i
      then Reserve(p, s.procs[p].at.amountCents) else Stutter
    case CommitOutcome(p) =>
      if !IsPay(s, p) || s.procs[p].order.invoice != i then Stutter
      else if AtLost(s, p) then Lose(p)
      else if AtRefused(s, p) then Decline(p)
      else if AtApproved(s, p) then Settle(p)
      else Stutter
    case RelockInvoice(p, _) => if GivesUp(cfg, s, step, i) then Lose(p) else Stutter
    case Abort(p) => if GivesUp(cfg, s, step, i) then Lose(p) else Stutter
    case _ => Stutter
  }

  /** The acting call ends here and leaves its attempt pending. */
  ghost predicate GivesUp(cfg: Config, s: State, step: Step, i: Pid)
    requires step.RelockInvoice? || step.Abort?
  {
    && LiveOn(s, i, step.p) && IsPay(s, step.p) && !Ended(s.procs[step.p].at)
    && IsPay(Apply(cfg, s, step), step.p) && Ended(Apply(cfg, s, step).procs[step.p].at)
  }

  /******* The simulation *******/

  /** Only the second commit, a refused re-check and an abort end a call that holds a reservation. */
  lemma KeepsRunning(cfg: Config, s: State, step: Step, a: Pid)
    requires Inv(cfg, s) && IsPay(s, a) && OwnPending(TablesOf(s), a) && !Ended(s.procs[a].at)
    requires !step.CommitOutcome? && !step.RelockInvoice? && !step.Abort?
    ensures IsPay(Apply(cfg, s, step), a) && !Ended(Apply(cfg, s, step).procs[a].at)
  {
    RequestStep(cfg, s, step, a);
    PayFacts(cfg, s, a);
  }

  lemma QuietRows(cfg: Config, s: State, step: Step, i: Pid, a: Pid)
    requires Inv(cfg, s) && ActOf(cfg, s, step, i) == Stutter
    ensures LiveOn(Apply(cfg, s, step), i, a) <==> LiveOn(s, i, a)
    ensures LiveOn(s, i, a) ==> Apply(cfg, s, step).attempts[a] == s.attempts[a]
  {
    StepGrows(cfg, s, step);
    if step.CommitReservation? {
      if IsPay(s, step.p) { PayFacts(cfg, s, step.p); }
    } else if step.CommitOutcome? {
      QuietOutcome(cfg, s, step.p, i, a);
    } else if step.SendCharge? || step.CommitMove? || step.CommitCreate? || step.PspCharges? || step.PspDeclines? {
      assert Apply(cfg, s, step).attempts == s.attempts;
    }
  }

  lemma QuietOutcome(cfg: Config, s: State, p: Pid, i: Pid, a: Pid)
    requires Inv(cfg, s) && ActOf(cfg, s, CommitOutcome(p), i) == Stutter
    ensures LiveOn(DoCommitOutcome(s, p), i, a) <==> LiveOn(s, i, a)
    ensures LiveOn(s, i, a) ==> DoCommitOutcome(s, p).attempts[a] == s.attempts[a]
  {
    if AtLost(s, p) || AtRefused(s, p) || AtApproved(s, p) { RowFacts(cfg, s, p); }
  }

  lemma QuietCall(cfg: Config, s: State, step: Step, i: Pid, a: Pid)
    requires Inv(cfg, s) && ActOf(cfg, s, step, i) == Stutter && LiveOn(s, i, a)
    ensures LiveOn(Apply(cfg, s, step), i, a) && IsPay(s, a) && IsPay(Apply(cfg, s, step), a)
    ensures AccountAt(Apply(cfg, s, step), a) == AccountAt(s, a)
  {
    RowFacts(cfg, s, a);
    QuietRows(cfg, s, step, i, a);
    RequestStep(cfg, s, step, a);
    if s.attempts[a].status == PENDING && !Ended(s.procs[a].at) && Actor(step) == Some(a) {
      if step.CommitOutcome? {
        assert !AtLost(s, a) && !AtRefused(s, a) && !AtApproved(s, a);
      } else if step.RelockInvoice? || step.Abort? {
        assert !GivesUp(cfg, s, step, i);
      } else {
        KeepsRunning(cfg, s, step, a);
      }
    }
  }

  lemma StutterKeeps(cfg: Config, s: State, step: Step, i: Pid)
    requires Inv(cfg, s) && Single(cfg, s, i) && ActOf(cfg, s, step, i) == Stutter
    ensures AccountOf(Apply(cfg, s, step), i) == AccountOf(s, i)
  {
    var s' := Apply(cfg, s, step);
    StepKeeps(cfg, s, step);
    LiveKept(cfg, s, step, i);
    if exists a :: LiveOn(s, i, a) {
      var a :| LiveOn(s, i, a);
      QuietCall(cfg, s, step, i, a);
      AccountIs(cfg, s, i, a);
      AccountIs(cfg, s', i, a);
    } else {
      forall a ensures !LiveOn(s', i, a) { QuietRows(cfg, s, step, i, a); }
    }
  }

  lemma ReserveActs(cfg: Config, s: State, p: Pid, i: Pid)
    requires Inv(cfg, s) && Single(cfg, s, i) && IsPay(s, p) && s.procs[p].at.Inserted?
    requires s.procs[p].order.invoice == i
    ensures AccountOf(s, i) == Idle
    ensures AccountOf(DoCommitReservation(cfg, s, p), i) == Held(p, s.procs[p].at.amountCents)
  {
    PayFacts(cfg, s, p);
    forall a ensures !LiveOn(s, i, a) { NoneLive(cfg, s, i, p, a); }
    CommitReservationKeeps(cfg, s, p);
    LiveKept(cfg, s, CommitReservation(p), i);
    AccountIs(cfg, DoCommitReservation(cfg, s, p), i, p);
  }

  lemma OutcomeAccount(cfg: Config, s: State, p: Pid)
    requires (AtLost(s, p) || AtRefused(s, p) || AtApproved(s, p)) && Inv(cfg, s) &&
             Single(cfg, s, s.procs[p].order.invoice)
    ensures AccountOf(s, s.procs[p].order.invoice) == Held(p, s.attempts[p].amountCents)
    ensures LiveOn(s, s.procs[p].order.invoice, p)
  {
    PayFacts(cfg, s, p);
    RowFacts(cfg, s, p);
    AccountIs(cfg, s, s.procs[p].order.invoice, p);
  }

  lemma LostActs(cfg: Config, s: State, p: Pid)
    requires AtLost(s, p) && Inv(cfg, s) && Single(cfg, s, s.procs[p].order.invoice)
    ensures AccountOf(CommitLost(s, p), s.procs[p].order.invoice) == Unknown(p, s.attempts[p].amountCents)
  {
    OutcomeAccount(cfg, s, p);
    PayFacts(cfg, s, p);
    CommitLostKeeps(cfg, s, p);
    LiveKept(cfg, s, CommitOutcome(p), s.procs[p].order.invoice);
    AccountIs(cfg, CommitLost(s, p), s.procs[p].order.invoice, p);
  }

  lemma SettleActs(cfg: Config, s: State, p: Pid)
    requires AtApproved(s, p) && Inv(cfg, s) && Single(cfg, s, s.procs[p].order.invoice)
    ensures AccountOf(CommitApproved(s, p), s.procs[p].order.invoice) == Settled(p, s.attempts[p].amountCents)
  {
    OutcomeAccount(cfg, s, p);
    CommitApprovedKeeps(cfg, s, p);
    LiveKept(cfg, s, CommitOutcome(p), s.procs[p].order.invoice);
    AccountIs(cfg, CommitApproved(s, p), s.procs[p].order.invoice, p);
  }

  lemma DeclineActs(cfg: Config, s: State, p: Pid)
    requires AtRefused(s, p) && Inv(cfg, s) && Single(cfg, s, s.procs[p].order.invoice)
    ensures AccountOf(CommitRefused(s, p), s.procs[p].order.invoice) == Idle
  {
    OutcomeAccount(cfg, s, p);
    forall a ensures !LiveOn(CommitRefused(s, p), s.procs[p].order.invoice, a) {
      assert LiveOn(CommitRefused(s, p), s.procs[p].order.invoice, a) ==> LiveOn(s, s.procs[p].order.invoice, a);
    }
  }

  lemma OutcomeActs(cfg: Config, s: State, p: Pid, i: Pid)
    requires Inv(cfg, s) && Single(cfg, s, i) && IsPay(s, p) && s.procs[p].order.invoice == i
    requires AtLost(s, p) || AtRefused(s, p) || AtApproved(s, p)
    ensures CanDo(AccountOf(s, i), ActOf(cfg, s, CommitOutcome(p), i))
    ensures AccountOf(DoCommitOutcome(s, p), i) == Next(AccountOf(s, i), ActOf(cfg, s, CommitOutcome(p), i))
  {
    OutcomeAccount(cfg, s, p);
    if AtLost(s, p) {
      LostActs(cfg, s, p);
    } else if AtRefused(s, p) {
      DeclineActs(cfg, s, p);
    } else {
      SettleActs(cfg, s, p);
    }
  }

  lemma LoseActs(cfg: Config, s: State, step: Step, i: Pid)
    requires Inv(cfg, s) && Single(cfg, s, i) && (step.RelockInvoice? || step.Abort?) && GivesUp(cfg, s, step, i)
    ensures CanDo(AccountOf(s, i), Lose(step.p))
    ensures AccountOf(Apply(cfg, s, step), i) == Next(AccountOf(s, i), Lose(step.p))
  {
    StepKeeps(cfg, s, step);
    GivenUp(cfg, s, Apply(cfg, s, step), i, step.p);
  }

  lemma GivenUp(cfg: Config, s: State, s': State, i: Pid, p: Pid)
    requires Inv(cfg, s) && OneLive(s, i) && Inv(cfg, s') && s'.attempts == s.attempts && LiveOn(s, i, p)
    requires IsPay(s, p) && !Ended(s.procs[p].at) && IsPay(s', p) && Ended(s'.procs[p].at)
    ensures AccountOf(s, i) == Held(p, s.attempts[p].amountCents)
    ensures AccountOf(s', i) == Unknown(p, s.attempts[p].amountCents)
  {
    RowFacts(cfg, s, p);
    AccountIs(cfg, s, i, p);
    assert forall a :: LiveOn(s', i, a) ==> LiveOn(s, i, a);
    AccountIs(cfg, s', i, p);
  }

  /** Each protocol step performs one ledger act on each account, and the act is
      possible there: the two commits are reserve and settle (or decline, or lose),
      giving up is lose, every other statement of every request is a stutter. */
  lemma StepRefines(cfg: Config, s: State, step: Step, i: Pid)
    requires Inv(cfg, s) && Single(cfg, s, i)
    ensures CanDo(AccountOf(s, i), ActOf(cfg, s, step, i))
    ensures AccountOf(Apply(cfg, s, step), i) == Next(AccountOf(s, i), ActOf(cfg, s, step, i))
  {
    match ActOf(cfg, s, step, i)
    case Stutter => StutterKeeps(cfg, s, step, i);
    case Reserve(p, _) => ReserveActs(cfg, s, p, i);
    case Settle(p) => OutcomeActs(cfg, s, p, i);
    case Decline(p) => OutcomeActs(cfg, s, p, i);
    case Lose(p) => if step.CommitOutcome? { OutcomeActs(cfg, s, p, i); } else { LoseActs(cfg, s, step, i); }
  }

  /******* Runs *******/

  ghost function Acts(cfg: Config, steps: seq<Step>, i: Pid): seq<Act> {
    if steps == [] then []
    else
      var front := steps[..|steps| - 1];
      Acts(cfg, front, i) + [ActOf(cfg, Run(cfg, EMPTY, front), steps[|steps| - 1], i)]
  }

  /** The acts are a run of the ledger from acc to acc'. */
  predicate LedgerRun(acc: Account, acts: seq<Act>, acc': Account)
    decreases |acts|
  {
    if acts == [] then acc' == acc
    else CanDo(acc, acts[0]) && LedgerRun(Next(acc, acts[0]), acts[1..], acc')
  }

  lemma {:induction false} LedgerRunSnoc(acc: Account, acts: seq<Act>, acc': Account, act: Act)
    requires LedgerRun(acc, acts, acc') && CanDo(acc', act)
    ensures LedgerRun(acc, acts + [act], Next(acc', act))
    decreases |acts|
  {
    if acts == [] {
      assert acts + [act] == [act];
    } else {
      LedgerRunSnoc(Next(acc, acts[0]), acts[1..], acc', act);
      assert (acts + [act])[1..] == acts[1..] + [act];
    }
  }

  /** Every interleaving in which no two finalizes of the invoice overlap is a run of its account. */
  lemma {:induction false} ProtocolRefinesLedger(cfg: Config, steps: seq<Step>, i: Pid)
    requires FinalizesApart(cfg, steps, i)
    ensures LedgerRun(Idle, Acts(cfg, steps, i), AccountOf(Run(cfg, EMPTY, steps), i))
    decreases |steps|
  {
    if steps == [] {
      assert forall a :: !LiveOn(EMPTY, i, a);
    } else {
      var front, step := steps[..|steps| - 1], steps[|steps| - 1];
      var s := Run(cfg, EMPTY, front);
      ApartBefore(cfg, steps, front, i);
      ProtocolRefinesLedger(cfg, front, i);
      RunsSingle(cfg, front, i);
      Reachable(cfg, front);
      StepRefines(cfg, s, step, i);
      LedgerRunSnoc(Idle, Acts(cfg, front, i), AccountOf(s, i), ActOf(cfg, s, step, i));
    }
  }

  /** In the ledger, nothing happens to an account after it is settled or unknown. */
  lemma {:induction false} ClosedAccountsStay(acc: Account, acts: seq<Act>, acc': Account)
    requires LedgerRun(acc, acts, acc') && (acc.Settled? || acc.Unknown?)
    ensures acc' == acc && forall k :: 0 <= k < |acts| ==> acts[k] == Stutter
    decreases |acts|
  {
    if acts != [] {
      ClosedAccountsStay(Next(acc, acts[0]), acts[1..], acc');
      assert acts == [acts[0]] + acts[1..];
    }
  }

  /** If no two finalizes of the invoice overlap, a charge is on its account, and if it is paid
      the account is settled. */
  lemma AccountShowsMoney(cfg: Config, steps: seq<Step>, s: State, i: Pid, c: Pid)
    requires FinalizesApart(cfg, steps, i) && Reaches(cfg, EMPTY, steps, s)
    ensures ChargedOn(s, i, c) ==>
              !AccountOf(s, i).Idle? && AccountOf(s, i).call == c && AccountOf(s, i).amountCents == s.psp[c].amountCents
    ensures i in s.invoices && s.invoices[i].state == PAID ==>
              AccountOf(s, i).Settled? && AccountOf(s, i).amountCents == s.invoices[i].totalCents
  {
    SingleReached(cfg, steps, s, i);
    if ChargedOn(s, i, c) {
      ChargeIsRecorded(cfg, s, i, c);
      AccountIs(cfg, s, i, c);
    }
    if i in s.invoices && s.invoices[i].state == PAID {
      assert Holds(cfg, s, InvoicesClause);
      var a :| PaidBy(s.attempts, i, a);
      RowFacts(cfg, s, a);
      AccountIs(cfg, s, i, a);
    }
  }
}
