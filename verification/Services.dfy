/** The services as they run: mutable tables, one method per database statement, and
    process_payment as the sequence of its statements with other requests in between. */
module Services {
  import opened InvoiceStates
  import opened Options
  import opened FailureCodes
  import opened PaymentProtocol
  import opened ProtocolInvariant
  import opened FinalizeSchedules
  import opened PaymentSafety
  import opened PaymentReplies
  import opened MoneyConservation
  import opened StatementCases

  /******* create_invoice: the amounts *******/

  datatype LineRow = LineRow(quantity: int, unitAmountCents: int, amountCents: int)

  ghost function RowTotal(rows: seq<LineRow>): int {
    if rows == [] then 0 else rows[0].amountCents + RowTotal(rows[1..])
  }

  lemma {:induction false} RowsAddUp(items: seq<LineItem>, rows: seq<LineRow>)
    requires |rows| == |items|
    requires forall k :: 0 <= k < |items| ==> rows[k].amountCents == items[k].quantity * items[k].unitAmountCents
    ensures RowTotal(rows) == ProductSum(items)
  {
    if items != [] { RowsAddUp(items[1..], rows[1..]); }
  }

  /** The total of the invoice and the rows of its lines: every row carries its own product, and
      the total is what the rows add up to. */
  method PriceLines(items: seq<LineItem>) returns (totalCents: int, rows: seq<LineRow>)
    ensures totalCents == LineTotal(items) == ProductSum(items) == RowTotal(rows)
    ensures |rows| == |items|
    ensures forall k :: 0 <= k < |items| ==>
              rows[k] == LineRow(items[k].quantity, items[k].unitAmountCents,
                                 items[k].quantity * items[k].unitAmountCents)
  {
    totalCents := 0;
    for k := 0 to |items|
      invariant totalCents == LineTotal(items[..k])
    {
      assert items[..k + 1][..k] == items[..k];
      totalCents := totalCents + items[k].quantity * items[k].unitAmountCents;
    }
    assert items[..|items|] == items;
    rows := [];
    for k := 0 to |items|
      invariant |rows| == k
      invariant forall j :: 0 <= j < k ==>
                  rows[j] == LineRow(items[j].quantity, items[j].unitAmountCents,
                                     items[j].quantity * items[j].unitAmountCents)
    {
      var amountCents := items[k].quantity * items[k].unitAmountCents;
      rows := rows + [LineRow(items[k].quantity, items[k].unitAmountCents, amountCents)];
    }
    TotalIsProductSum(items);
    RowsAddUp(items, rows);
  }

  /******* enqueue_event: the rows *******/

  ghost function OutboxRows(endpoints: set<EndpointId>, event: Event, payload: Payload): multiset<Delivery> {
    multiset(set e | e in endpoints :: Delivery(event, e, payload))
  }

  lemma OutboxRowsAdd(endpoints: set<EndpointId>, e: EndpointId, event: Event, payload: Payload)
    requires e !in endpoints
    ensures OutboxRows(endpoints + {e}, event, payload) ==
            OutboxRows(endpoints, event, payload) + multiset{Delivery(event, e, payload)}
  {
    assert (set x | x in endpoints + {e} :: Delivery(event, x, payload)) ==
           (set x | x in endpoints :: Delivery(event, x, payload)) + {Delivery(event, e, payload)};
  }

  lemma ReachedNext(cfg: Config, s: State, trace: seq<Step>, step: Step)
    requires Reaches(cfg, EMPTY, trace, s)
    ensures Reaches(cfg, EMPTY, trace + [step], Apply(cfg, s, step))
    ensures forall s' :: Reaches(cfg, EMPTY, trace + [step], s') ==> s' == Apply(cfg, s, step)
  {
    assert (trace + [step])[..|trace|] == trace;
    assert Run(cfg, EMPTY, trace + [step]) == Apply(cfg, Run(cfg, EMPTY, trace), step);
  }

  lemma LeavesAlone(cfg: Config, s: State, trace: seq<Step>, step: Step, p: Pid)
    requires Reaches(cfg, EMPTY, trace, s) && Actor(step) != Some(p)
    ensures forall s' :: Reaches(cfg, EMPTY, trace + [step], s') ==>
              (p in s'.procs <==> p in s.procs) && (p in s.procs ==> s'.procs[p] == s.procs[p])
  {
    ReachedInv(cfg, trace, s);
    RequestStep(cfg, s, step, p);
    ReachedNext(cfg, s, trace, step);
  }

  /** What the answer of a finished call says about the row it returns and the money taken. */
  ghost predicate Truthful(cfg: Config, s: State, p: Pid, o: Order, result: PayResult) {
    if result.Returned? then
      && var a := result.attempt;
      && Matches(s, a, o) && s.attempts[a].requestHash == cfg.hash(o.cardToken)
      && s.attempts[a].status == result.status && (result.isCached <==> a != p)
      && (result.status == SUCCEEDED ==> a in Charges(s, o.invoice))
      && (result.status == FAILED ==> a !in Charges(s, o.invoice))
    else
      result.Died? || Unsettled(s, p)
  }

  /** If the provider was called, the attempt of the call is still pending. */
  ghost predicate Unsettled(s: State, p: Pid) {
    p in s.psp ==> p in s.attempts && s.attempts[p].status == PENDING
  }

  /** What became of the call is in its attempt: a final status, or the code of the provider's error. */
  ghost predicate Recorded(s: State, p: Pid) {
    p in s.attempts && (s.attempts[p].status == PENDING ==> s.attempts[p].failureCode.Some?)
  }

  lemma AnswerIsTrue(cfg: Config, s: State, p: Pid)
    requires Inv(cfg, s) && IsPay(s, p) && s.procs[p].at.PayDone? && Reports(s.attempts, s.procs[p])
    ensures Truthful(cfg, s, p, s.procs[p].order, s.procs[p].at.result)
  {
    var o, result := s.procs[p].order, s.procs[p].at.result;
    PayFacts(cfg, s, p);
    if result.Returned? {
      var a := result.attempt;
      RowFacts(cfg, s, a);
      assert result.status == SUCCEEDED ==> ChargedOn(s, o.invoice, a);
    } else if p in s.psp {
      ChargeFacts(cfg, s, p);
      RowFacts(cfg, s, p);
    }
  }

  /** If no two finalizes of the invoice overlapped, a charge on it is the only one. */
  lemma SoleCharge(cfg: Config, steps: seq<Step>, s: State, i: Pid, a: Pid)
    requires FinalizesApart(cfg, steps, i) && Reaches(cfg, EMPTY, steps, s) && a in Charges(s, i)
    ensures Charges(s, i) == {a}
  {
    ChargeNeverForgotten(cfg, steps, s, i, a);
    forall c | c in Charges(s, i) ensures c == a {
      ChargeNeverForgotten(cfg, steps, s, i, c);
      assert c in LiveAttempts(s, i);
    }
  }

  /** Statements of other requests, moves of the provider, changes of endpoints. */
  predicate Others(p: Pid, steps: seq<Step>) {
    forall k :: 0 <= k < |steps| ==> Actor(steps[k]) != Some(p)
  }

  /** The log has only grown. */
  ghost predicate Extends(steps: seq<Step>, log: seq<Step>) {
    |log| <= |steps| && forall k {:trigger steps[k]} :: 0 <= k < |log| ==> steps[k] == log[k]
  }

  lemma ExtendsAgain(steps: seq<Step>, mid: seq<Step>, log: seq<Step>)
    requires Extends(steps, mid) && Extends(mid, log)
    ensures Extends(steps, log)
  {
    forall k | 0 <= k < |log| ensures steps[k] == log[k] {
      assert steps[k] == mid[k];
    }
  }

  /** The call got no answer because the provider had not decided when it was waited for. */
  ghost predicate NoAnswerYet(cfg: Config, steps: seq<Step>, p: Pid) {
    exists k: nat :: k < |steps| && NoAnswerAt(cfg, steps, k, p)
  }

  ghost predicate NoAnswerAt(cfg: Config, steps: seq<Step>, k: nat, p: Pid)
    requires k < |steps|
  {
    var s := Run(cfg, EMPTY, steps[..k]);
    steps[k] == ReplyLost(p, PSPTimeout) && p in s.psp && s.psp[p].stage == Undecided
  }

  lemma NoAnswerNow(cfg: Config, s: State, steps: seq<Step>, p: Pid)
    requires Reaches(cfg, EMPTY, steps, s) && p in s.psp && s.psp[p].stage == Undecided
    ensures NoAnswerYet(cfg, steps + [ReplyLost(p, PSPTimeout)], p)
  {
    var log := steps + [ReplyLost(p, PSPTimeout)];
    assert log[..|steps|] == steps;
    assert NoAnswerAt(cfg, log, |steps|, p);
  }

  lemma StillNoAnswer(cfg: Config, steps: seq<Step>, log: seq<Step>, p: Pid)
    requires Extends(steps, log) && NoAnswerYet(cfg, log, p)
    ensures NoAnswerYet(cfg, steps, p)
  {
    var k: nat :| k < |log| && NoAnswerAt(cfg, log, k, p);
    assert steps[..k] == log[..k];
    assert NoAnswerAt(cfg, steps, k, p);
  }

  /** What the call's own answers come from: with an error of the client it is unknown with the
      error's code, otherwise the provider's decision and reference, or unknown if there was none. */
  ghost predicate FromReply(cfg: Config, steps: seq<Step>, p: Pid, pspRef: string, lost: Option<PspError>,
                            reply: Reply)
  {
    && (lost.Some? ==> reply == Lost(lost.value))
    && (lost.None? && reply.Approved? ==> reply == Approved(pspRef))
    && (lost.None? && reply.Lost? ==> reply == Lost(PSPTimeout) && NoAnswerYet(cfg, steps, p))
  }

  /** What a reply decides, it has decided for every later moment. */
  lemma RepliedLater(cfg: Config, steps: seq<Step>, s: State, log: seq<Step>, m: State, p: Pid, reply: Reply)
    requires Reaches(cfg, EMPTY, steps, s) && Reaches(cfg, EMPTY, log, m) && Extends(steps, log)
    requires RepliedWith(m, p, reply)
    ensures RepliedWith(s, p, reply)
  {
    var more := steps[|log|..];
    assert steps == log + more;
    RunConcat(cfg, EMPTY, log, more);
    ReachedInv(cfg, log, m);
    assert Run(cfg, EMPTY, log) == m && Run(cfg, EMPTY, steps) == s;
    ReplyKeptRun(cfg, m, more, p, reply);
  }

  /** The new row violates the other constraint and not the one named. */
  ghost predicate WrongReport(s: State, o: Order, report: Report) {
    if report.PendingIndex? then !PendingOn(s, o.invoice) && KeyTaken(s, o)
    else PendingOn(s, o.invoice) && !KeyTaken(s, o)
  }

  class Backend {
    const cfg: Config
    var invoices: map<Pid, Invoice>
    var attempts: map<Pid, Attempt>
    var deliveries: multiset<Delivery>
    var endpoints: map<EndpointId, Endpoint>
    var locks: map<Pid, Pid>
    var procs: map<Pid, Proc>
    var psp: map<Pid, Charge>
    /** Every statement executed so far. */
    ghost var trace: seq<Step>

    ghost function View(): State
      reads this
    {
      State(invoices, attempts, deliveries, endpoints, locks, procs, psp)
    }

    /** The tables changed as the protocol's step says. */
    ghost predicate Took(before: State, step: Step)
      reads this
    {
      forall s :: s == before ==> Apply(cfg, s, step) == View()
    }

    /** The tables are what the protocol reaches by the statements executed. */
    ghost predicate Valid()
      reads this
    {
      Reaches(cfg, EMPTY, trace, View())
    }

    constructor (cfg: Config)
      ensures Valid() && this.cfg == cfg && trace == []
    {
      this.cfg := cfg;
      invoices, attempts, deliveries, endpoints, locks, procs, psp :=
        map[], map[], multiset{}, map[], map[], map[], map[];
      trace := [];
    }

    /** The tables are the protocol's after one more step. */
    ghost predicate Executed(before: State, log: seq<Step>, step: Step)
      reads this
    {
      Valid() && trace == log + [step] && Took(before, step)
    }

    ghost method Record(before: State, step: Step)
      requires Reaches(cfg, EMPTY, trace, before) && View() == Apply(cfg, before, step)
      modifies this`trace
      ensures Executed(before, old(trace), step)
    {
      ReachedNext(cfg, before, trace, step);
      trace := trace + [step];
    }

    lemma ValidInv()
      requires Valid()
      ensures Inv(cfg, View())
    {
      ReachedInv(cfg, trace, View());
    }

    /** So what is proved of the protocol holds of the tables at every moment: as long as no two
        finalizes of an invoice have overlapped, that invoice has at most one charge and one live attempt. */
    lemma TablesAreSafe(i: Pid)
      requires Valid() && FinalizesApart(cfg, trace, i)
      ensures |Charges(View(), i)| <= 1 && |LiveAttempts(View(), i)| <= 1
    {
      NoDoubleCharge(cfg, trace, View(), i);
      OneLiveAttempt(cfg, trace, View(), i);
    }

    /******* Queries *******/

    predicate AtPay(p: Pid)
      reads this
    {
      p in procs && procs[p].Pay?
    }

    /** A statement on this invoice has to wait: for its row, or for an index entry of its attempts. */
    ghost predicate Held(i: Pid)
      reads this
    {
      i in locks || Contended(View(), i)
    }

    /** The call of order o is under way or has just ended: with an answer that agrees with the
        row it returns, or because it had to wait for a lock. */
    ghost predicate Continues(p: Pid, o: Order)
      reads this
    {
      && p in procs && procs[p].Pay? && procs[p].order == o
      && Reports(attempts, procs[p])
      && (procs[p].at == PayDone(Died) ==> Held(o.invoice) && Unsettled(View(), p))
    }

    /** If the call has ended by returning an attempt, it is one of an earlier call. */
    ghost predicate NotItsOwn(p: Pid)
      reads this
    {
      AtPay(p) && (procs[p].at.PayDone? && procs[p].at.result.Returned? ==> procs[p].at.result.isCached)
    }

    /** SELECT ... WHERE invoice_id = ... AND idempotency_key = ... */
    method FindByKey(o: Order) returns (row: Option<Pid>)
      requires Valid()
      ensures row == FindAttempt(View(), o)
    {
      ValidInv();
      if a :| a in attempts && attempts[a].invoice == o.invoice && attempts[a].key == o.key {
        assert Matches(View(), a, o);
        TwoAttempts(cfg, View(), a, FindAttempt(View(), o).value);
        return Some(a);
      }
      return None;
    }

    /** An index entry of the invoice is being changed by an open transaction. */
    predicate MustWait(i: Pid)
      reads this
      ensures MustWait(i) <==> Contended(View(), i)
    {
      exists a :: a in attempts && attempts[a].invoice == i && a in procs && procs[a].Pay? && Uncommitted(procs[a].at)
    }

    predicate HasPending(i: Pid)
      reads this
      ensures HasPending(i) <==> PendingOn(View(), i)
    {
      exists a :: a in attempts && attempts[a].invoice == i && attempts[a].status == PENDING
    }

    /** One outbox row per active endpoint of the business. */
    method EnqueueEvent(business: BusinessId, event: Event, payload: Payload) returns (outbox: multiset<Delivery>)
      ensures outbox == FanOut(View(), business, event, payload)
    {
      var active := set e | e in endpoints && endpoints[e].business == business && endpoints[e].isActive;
      var rest := active;
      outbox := multiset{};
      while rest != {}
        invariant rest <= active
        invariant outbox == OutboxRows(active - rest, event, payload)
        decreases rest
      {
        var e :| e in rest;
        OutboxRowsAdd(active - rest, e, event, payload);
        assert active - (rest - {e}) == active - rest + {e};
        outbox := outbox + multiset{Delivery(event, e, payload)};
        rest := rest - {e};
      }
      assert active - rest == active;
      assert (set e | e in active :: Delivery(event, e, payload)) ==
             (set e | e in endpoints && endpoints[e] == Endpoint(business, true) :: Delivery(event, e, payload));
    }

    /** The request goes on to the next statement; a row lock is taken or given back with it. */
    method Goto(p: Pid, pc: PayPc, held: map<Pid, Pid>, ghost step: Step)
      requires Valid() && AtPay(p) && Apply(cfg, View(), step) == SetPay(View(), p, pc).(locks := held)
      requires pc != PayDone(Died) && Reports(attempts, Pay(procs[p].order, pc))
      modifies `procs, `locks, `trace
      ensures Executed(old(View()), old(trace), step)
      ensures Continues(p, old(procs)[p].order) && procs[p].at == pc
    {
      ghost var before := View();
      procs := procs[p := Pay(procs[p].order, pc)];
      locks := held;
      Record(before, step);
    }

    /** The statement waits for a lock, or has nothing to do. */
    ghost method Wait(step: Step)
      requires Valid() && Apply(cfg, View(), step) == View()
      modifies this`trace
      ensures Valid() && trace == old(trace) + [step]
    {
      Record(View(), step);
    }

    /******* process_payment, statement by statement *******/

    method StartPay(p: Pid, order: Order)
      requires Valid() && p !in procs
      modifies `procs, `locks, `trace
      ensures Executed(old(View()), old(trace), Step.StartPay(p, order))
      ensures p in procs && procs[p] == Pay(order, Started)
    {
      ghost var before := View();
      procs := procs[p := Pay(order, Started)];
      Record(before, Step.StartPay(p, order));
    }

    method CacheLookup(p: Pid)
      requires Valid() && AtPay(p) && procs[p].at.Started?
      modifies `procs, `locks, `trace
      ensures Executed(old(View()), old(trace), Step.CacheLookup(p))
      ensures NotItsOwn(p)
      ensures Continues(p, old(procs)[p].order) && (procs[p].at.CacheMissed? || procs[p].at.PayDone?)
    {
      ghost var step := Step.CacheLookup(p);
      var o := procs[p].order;
      var existing := FindByKey(o);
      if existing.None? {
        Goto(p, CacheMissed, locks, step);
      } else if attempts[existing.value].requestHash != cfg.hash(o.cardToken) {
        Goto(p, PayDone(IdempotencyConflict), locks, step);
      } else {
        Goto(p, PayDone(Returned(existing.value, attempts[existing.value].status, true)), locks, step);
      }
    }

    method LockInvoice(p: Pid)
      requires Valid() && AtPay(p) && procs[p].at.CacheMissed?
      modifies `procs, `locks, `trace
      ensures Executed(old(View()), old(trace), Step.LockInvoice(p))
      ensures NotItsOwn(p)
      ensures Continues(p, old(procs)[p].order) &&
              (procs[p].at.CacheMissed? || procs[p].at.LockedOpen? || procs[p].at.PayDone?)
      ensures procs[p].at.CacheMissed? ==> procs[p].order.invoice in locks
    {
      ghost var step := Step.LockInvoice(p);
      LockCases(View(), p);
      var o := procs[p].order;
      var i := o.invoice;
      if i !in invoices || invoices[i].business != o.business {
        Goto(p, PayDone(NotFoundError), locks, step);
      } else if i in locks {
        Wait(step);
      } else {
        TableClimbsOneRank(invoices[i].state, PAID);
        if AssertTransitionAllowed(invoices[i].state, PAID).Permitted? {
          Goto(p, LockedOpen(invoices[i].totalCents), locks[i := p], step);
        } else {
          Goto(p, PayDone(InvalidStateTransition), locks, step);
        }
      }
    }

    /** INSERT of the pending attempt: the CHECK on the amount and both unique constraints. */
    method InsertAttempt(p: Pid, report: Report)
      requires Valid() && AtPay(p) && procs[p].at.LockedOpen?
      modifies `procs, `locks, `trace
      ensures Executed(old(View()), old(trace), Step.InsertAttempt(p, report))
      ensures NotItsOwn(p)
      ensures Continues(p, old(procs)[p].order)
      ensures procs[p].at.LockedOpen? || procs[p].at.Inserted? || procs[p].at.Conflicted? || procs[p].at.PayDone?
      ensures procs[p].at.LockedOpen? ==>
                && View() == old(View())
                && (Contended(View(), procs[p].order.invoice) || WrongReport(View(), procs[p].order, report))
    {
      ghost var step := Step.InsertAttempt(p, report);
      InsertCases(View(), p, report);
      var o, amount := procs[p].order, procs[p].at.totalCents;
      var taken := FindByKey(o);
      if amount <= 0 {
        Goto(p, Conflicted, locks - {o.invoice}, step);
      } else if MustWait(o.invoice) {
        Wait(step);
      } else if !HasPending(o.invoice) && taken.None? {
        Goto(p, Inserted(amount), locks, step);
      } else {
        InsertRefused(p, report, HasPending(o.invoice), taken.Some?);
      }
    }

    /** The unique violation, told apart by the constraint that the database names. */
    method InsertRefused(p: Pid, report: Report, pending: bool, taken: bool)
      requires Valid() && AtPay(p) && procs[p].at.LockedOpen? && procs[p].at.totalCents > 0
      requires !Contended(View(), procs[p].order.invoice) && (pending || taken)
      requires (pending <==> PendingOn(View(), procs[p].order.invoice)) && (taken <==> KeyTaken(View(), procs[p].order))
      modifies `procs, `locks, `trace
      ensures Executed(old(View()), old(trace), Step.InsertAttempt(p, report))
      ensures NotItsOwn(p)
      ensures Continues(p, old(procs)[p].order) &&
              (procs[p].at.LockedOpen? || procs[p].at.Conflicted? || procs[p].at.PayDone?)
      ensures procs[p].at.LockedOpen? ==> View() == old(View()) && WrongReport(View(), procs[p].order, report)
    {
      ghost var step := Step.InsertAttempt(p, report);
      InsertCases(View(), p, report);
      var held := locks - {procs[p].order.invoice};
      if report.PendingIndex? && pending {
        Goto(p, PayDone(InvalidStateTransition), held, step);
      } else if report.IdempotencyIndex? && taken {
        Goto(p, Conflicted, held, step);
      } else {
        Wait(step);
      }
    }

    method RefetchWinner(p: Pid)
      requires Valid() && AtPay(p) && procs[p].at.Conflicted?
      modifies `procs, `locks, `trace
      ensures Executed(old(View()), old(trace), Step.RefetchWinner(p))
      ensures NotItsOwn(p)
      ensures Continues(p, old(procs)[p].order) && procs[p].at.PayDone?
    {
      ghost var step := Step.RefetchWinner(p);
      var o := procs[p].order;
      var winner := FindByKey(o);
      if winner.Some? && attempts[winner.value].requestHash == cfg.hash(o.cardToken) {
        Goto(p, PayDone(Returned(winner.value, attempts[winner.value].status, true)), locks, step);
      } else {
        Goto(p, PayDone(IdempotencyConflict), locks, step);
      }
    }

    /** The first commit: the pending attempt becomes durable and the row lock is given back. */
    method CommitReservation(p: Pid)
      requires Valid() && AtPay(p) && procs[p].at.Inserted?
      modifies this
      ensures Executed(old(View()), old(trace), Step.CommitReservation(p))
      ensures Continues(p, old(procs)[p].order) && procs[p].at.Reserved?
    {
      ghost var before := View();
      var o, amount := procs[p].order, procs[p].at.amountCents;
      attempts := attempts[p := NewAttempt(cfg, o, amount)];
      locks := locks - {o.invoice};
      procs := procs[p := Pay(o, Reserved)];
      Record(before, Step.CommitReservation(p));
    }

    /** The provider is called with the amount of the committed attempt. */
    method SendCharge(p: Pid)
      requires Valid() && AtPay(p) && procs[p].at.Reserved?
      modifies this
      ensures Executed(old(View()), old(trace), Step.SendCharge(p))
      ensures Continues(p, old(procs)[p].order) && procs[p].at.Sent?
    {
      ghost var before := View();
      ValidInv();
      OwnRow(cfg, before, p);
      psp := psp[p := Charge(attempts[p].amountCents, Undecided)];
      procs := procs[p := Pay(procs[p].order, Sent)];
      Record(before, Step.SendCharge(p));
    }

    /** The provider's answer, or the typed error the client raises in its place. */
    method AwaitReply(p: Pid, pspRef: string, lost: Option<PspError>) returns (ghost step: Step)
      requires Valid() && AtPay(p) && procs[p].at.Sent?
      modifies `procs, `locks, `trace
      ensures step == if lost.None? && p in old(psp) && old(psp)[p].stage != Undecided then ReplyArrives(p, pspRef)
                      else ReplyLost(p, lost.GetOr(PSPTimeout))
      ensures Executed(old(View()), old(trace), step)
      ensures Continues(p, old(procs)[p].order) && procs[p].at.Replied? && p in psp
      ensures procs[p].at.reply == (if lost.Some? then Lost(lost.value)
                                    else match psp[p].stage
                                         case Undecided => Lost(PSPTimeout)
                                         case Charged => Approved(pspRef)
                                         case Declined(code) => Refused(code))
      ensures RepliedWith(View(), p, procs[p].at.reply)
      ensures FromReply(cfg, trace, p, pspRef, lost, procs[p].at.reply)
    {
      ValidInv();
      OwnRow(cfg, View(), p);
      PayFacts(cfg, View(), p);
      ghost var before, log := View(), trace;
      var stage := psp[p].stage;
      if lost.None? && stage != Undecided {
        var reply := if stage.Charged? then Approved(pspRef) else Refused(stage.code);
        step := ReplyArrives(p, pspRef);
        Goto(p, Replied(reply), locks, step);
      } else {
        var error := lost.GetOr(PSPTimeout);
        step := ReplyLost(p, error);
        Goto(p, Replied(Lost(error)), locks, step);
        if lost.None? { NoAnswerNow(cfg, before, log, p); }
      }
      ReplyGiven(cfg, before, step, p, procs[p].at.reply);
    }

    method FlushOutcome(p: Pid)
      requires Valid() && AtPay(p) && procs[p].at.Replied? && !procs[p].at.reply.Lost?
      modifies `procs, `locks, `trace
      ensures Executed(old(View()), old(trace), Step.FlushOutcome(p))
      ensures Continues(p, old(procs)[p].order) && procs[p].at == Flushed(old(procs)[p].at.reply)
    {
      Goto(p, Flushed(procs[p].at.reply), locks, Step.FlushOutcome(p));
    }

    /** The second locking read; a stale session still sees the OPEN it read before. */
    method RelockInvoice(p: Pid, stale: bool)
      requires Valid() && AtPay(p) && procs[p].at.Flushed? && procs[p].at.reply.Approved?
      modifies `procs, `locks, `trace
      ensures Executed(old(View()), old(trace), Step.RelockInvoice(p, stale))
      ensures Continues(p, old(procs)[p].order)
      ensures procs[p] == old(procs)[p] || procs[p].at == Relocked(old(procs)[p].at.reply) || procs[p].at.PayDone?
      ensures procs[p] == old(procs)[p] && !(stale && cfg.freshReread) ==> procs[p].order.invoice in locks
    {
      ValidInv();
      OwnRow(cfg, View(), p);
      ghost var step := Step.RelockInvoice(p, stale);
      RelockCases(cfg, View(), p, stale);
      var reply, i := procs[p].at.reply, procs[p].order.invoice;
      if i !in invoices || i in locks || (stale && cfg.freshReread) {
        Wait(step);
      } else {
        var seen := if stale then OPEN else invoices[i].state;
        TableClimbsOneRank(seen, PAID);
        if AssertTransitionAllowed(seen, PAID).Permitted? {
          Goto(p, Relocked(reply), locks[i := p], step);
        } else {
          Goto(p, PayDone(InvalidStateTransition), locks, step);
        }
      }
    }

    method EnqueueOutcome(p: Pid)
      requires Valid() && AtPay(p)
      requires (procs[p].at.Relocked? && procs[p].at.reply.Approved?) ||
               (procs[p].at.Flushed? && procs[p].at.reply.Refused?)
      modifies `procs, `locks, `trace
      ensures Executed(old(View()), old(trace), Step.EnqueueOutcome(p))
      ensures Continues(p, old(procs)[p].order) && procs[p].at.Enqueued? && procs[p].at.reply == old(procs)[p].at.reply
    {
      ValidInv();
      OwnRow(cfg, View(), p);
      var o, reply := procs[p].order, procs[p].at.reply;
      var outbox := EnqueueEvent(o.business, OutcomeEvent(p, reply), OutcomePayload(o, attempts[p].amountCents, reply));
      Goto(p, Enqueued(reply, outbox), locks, Step.EnqueueOutcome(p));
    }

    method CommitUnknown(p: Pid)
      requires Valid() && AtPay(p) && procs[p].at.Replied? && procs[p].at.reply.Lost?
      modifies this
      ensures Executed(old(View()), old(trace), CommitOutcome(p))
      ensures Continues(p, old(procs)[p].order) && procs[p].at.Refreshing?
    {
      ghost var before := View();
      ValidInv();
      OwnRow(cfg, before, p);
      LostCase(before, p);
      var o, error := procs[p].order, procs[p].at.reply.error;
      attempts := attempts[p := attempts[p].(failureCode := Some(FailureCode(error)))];
      procs := procs[p := Pay(o, Refreshing)];
      Record(before, CommitOutcome(p));
    }

    method CommitFailure(p: Pid)
      requires Valid() && AtPay(p) && procs[p].at.Enqueued? && procs[p].at.reply.Refused?
      modifies this
      ensures Executed(old(View()), old(trace), CommitOutcome(p))
      ensures Continues(p, old(procs)[p].order) && procs[p].at.Refreshing?
    {
      ghost var before := View();
      ValidInv();
      OwnRow(cfg, before, p);
      RefusedCase(before, p);
      var o, pc := procs[p].order, procs[p].at;
      attempts := attempts[p := attempts[p].(status := FAILED, failureCode := Some(pc.reply.code))];
      deliveries := deliveries + pc.outbox;
      procs := procs[p := Pay(o, Refreshing)];
      Record(before, CommitOutcome(p));
    }

    /** The rows the second commit writes on success. */
    method WriteSuccess(p: Pid, o: Order, pspRef: string, outbox: multiset<Delivery>)
      requires p in attempts && o.invoice in invoices
      modifies `attempts, `invoices, `deliveries, `locks, `procs
      ensures View() == old(View()).(
                procs := old(procs)[p := Pay(o, Refreshing)],
                attempts := old(attempts)[p := old(attempts)[p].(status := SUCCEEDED, pspRef := Some(pspRef))],
                invoices := old(invoices)[o.invoice := old(invoices)[o.invoice].(state := PAID)],
                deliveries := old(deliveries) + outbox,
                locks := old(locks) - {o.invoice})
    {
      attempts := attempts[p := attempts[p].(status := SUCCEEDED, pspRef := Some(pspRef))];
      invoices := invoices[o.invoice := invoices[o.invoice].(state := PAID)];
      deliveries := deliveries + outbox;
      locks := locks - {o.invoice};
      procs := procs[p := Pay(o, Refreshing)];
    }

    method CommitSuccess(p: Pid)
      requires Valid() && AtPay(p) && procs[p].at.Enqueued? && procs[p].at.reply.Approved?
      modifies this
      ensures Executed(old(View()), old(trace), CommitOutcome(p))
      ensures Continues(p, old(procs)[p].order) && procs[p].at.Refreshing?
    {
      ghost var before := View();
      ValidInv();
      OwnRow(cfg, before, p);
      ApprovedCase(before, p);
      WriteSuccess(p, procs[p].order, procs[p].at.reply.pspRef, procs[p].at.outbox);
      Record(before, CommitOutcome(p));
    }

    /** The row is read again, and is what the call returns. */
    method RefreshAttempt(p: Pid)
      requires Valid() && AtPay(p) && procs[p].at.Refreshing?
      modifies `procs, `locks, `trace
      ensures Executed(old(View()), old(trace), Step.RefreshAttempt(p))
      ensures Continues(p, old(procs)[p].order)
      ensures p in attempts && procs[p].at == PayDone(Returned(p, attempts[p].status, false))
    {
      ValidInv();
      PayFacts(cfg, View(), p);
      Goto(p, PayDone(Returned(p, attempts[p].status, false)), locks, Step.RefreshAttempt(p));
    }

    /******* transition_invoice_state, statement by statement *******/

    method StartMove(p: Pid, business: BusinessId, invoice: Pid, target: InvoiceState)
      requires Valid() && p !in procs && target in {OPEN, VOID, UNCOLLECTIBLE}
      modifies `procs, `locks, `trace
      ensures Executed(old(View()), old(trace), Step.StartMove(p, business, invoice, target))
      ensures p in procs && procs[p] == Move(business, invoice, target, MoveStarted)
    {
      ghost var before := View();
      procs := procs[p := Move(business, invoice, target, MoveStarted)];
      Record(before, Step.StartMove(p, business, invoice, target));
    }

    /** The business has this invoice. */
    predicate Owns(business: BusinessId, invoice: Pid)
      reads this
    {
      invoice in invoices && invoices[invoice].business == business
    }

    predicate AtMove(p: Pid)
      reads this
    {
      p in procs && procs[p].Move?
    }

    method GotoMove(p: Pid, mv: MovePc, held: map<Pid, Pid>, ghost step: Step)
      requires Valid() && AtMove(p) && Apply(cfg, View(), step) == SetMove(View(), p, mv).(locks := held)
      modifies `procs, `locks, `trace
      ensures Executed(old(View()), old(trace), step)
      ensures procs == old(procs)[p := old(procs)[p].(mv := mv)]
    {
      ghost var before := View();
      procs := procs[p := procs[p].(mv := mv)];
      locks := held;
      Record(before, step);
    }

    /** The unlocked read and the check. */
    method ReadMove(p: Pid)
      requires Valid() && AtMove(p) && procs[p].mv.MoveStarted?
      modifies `procs, `locks, `trace
      ensures Executed(old(View()), old(trace), Step.ReadMove(p))
      ensures AtMove(p) && procs[p] == old(procs)[p].(mv := procs[p].mv)
      ensures procs[p].mv.MoveRead? || procs[p].mv == MoveDone(MoveNotFound) || procs[p].mv == MoveDone(MoveRefused)
      ensures procs[p].mv == MoveDone(MoveNotFound) <==> !Owns(procs[p].business, procs[p].invoice)
      ensures procs[p].mv == MoveDone(MoveRefused) <==>
                Owns(procs[p].business, procs[p].invoice) &&
                !AssertTransitionAllowed(invoices[procs[p].invoice].state, procs[p].target).Permitted?
    {
      ghost var step := Step.ReadMove(p);
      var i, target := procs[p].invoice, procs[p].target;
      if i !in invoices || invoices[i].business != procs[p].business {
        GotoMove(p, MoveDone(MoveNotFound), locks, step);
      } else {
        TableClimbsOneRank(invoices[i].state, target);
        if AssertTransitionAllowed(invoices[i].state, target).Permitted? {
          GotoMove(p, MoveRead(invoices[i].state), locks, step);
        } else {
          GotoMove(p, MoveDone(MoveRefused), locks, step);
        }
      }
    }

    /** The UPDATE: takes the row lock. */
    method WriteMove(p: Pid)
      requires Valid() && AtMove(p) && procs[p].mv.MoveRead?
      modifies `procs, `locks, `trace
      ensures Executed(old(View()), old(trace), Step.WriteMove(p))
      ensures AtMove(p) && procs[p] == old(procs)[p].(mv := procs[p].mv) &&
              (procs[p].mv.MoveRead? || procs[p].mv.MoveWritten?)
      ensures procs[p].mv.MoveRead? ==> MoveHeld(procs[p].invoice, procs[p].target)
    {
      ValidInv();
      MoveFacts(cfg, View(), p);
      ghost var step := Step.WriteMove(p);
      var i, seen := procs[p].invoice, procs[p].mv.seen;
      if i !in invoices || i in locks || (Atomic(cfg, procs[p].target) && invoices[i].state != seen) {
        Wait(step);
      } else {
        GotoMove(p, MoveWritten(seen), locks[i := p], step);
      }
    }

    method CommitMove(p: Pid)
      requires Valid() && AtMove(p) && procs[p].mv.MoveWritten?
      modifies this
      ensures Executed(old(View()), old(trace), Step.CommitMove(p))
      ensures Owns(old(procs)[p].business, old(procs)[p].invoice)
      ensures invoices[old(procs)[p].invoice].state == old(procs)[p].target
      ensures procs == old(procs)[p := old(procs)[p].(mv := MoveDone(MoveApplied))]
    {
      ghost var before := View();
      ValidInv();
      MoveFacts(cfg, before, p);
      var i := procs[p].invoice;
      invoices, locks, procs :=
        invoices[i := invoices[i].(state := procs[p].target)], locks - {i},
        procs[p := procs[p].(mv := MoveDone(MoveApplied))];
      Record(before, Step.CommitMove(p));
    }

    /******* create_invoice, statement by statement *******/

    method StartCreate(p: Pid, business: BusinessId, customerExists: bool, items: seq<LineItem>)
      requires Valid() && p !in procs
      modifies `procs, `locks, `trace
      ensures Executed(old(View()), old(trace), Step.StartCreate(p, business, customerExists, items))
      ensures p in procs &&
              procs[p] == Create(business, items, if customerExists then Building else CreateDone(CustomerNotFound))
    {
      ghost var before := View();
      procs := procs[p := Create(business, items, if customerExists then Building else CreateDone(CustomerNotFound))];
      Record(before, Step.StartCreate(p, business, customerExists, items));
    }

    predicate AtCreate(p: Pid)
      reads this
    {
      p in procs && procs[p].Create?
    }

    method EnqueueCreate(p: Pid)
      requires Valid() && AtCreate(p) && procs[p].cr.Building?
      modifies `procs, `locks, `trace
      ensures Executed(old(View()), old(trace), Step.EnqueueCreate(p))
      ensures var c := old(procs)[p]; AtCreate(p) && procs[p] == Create(c.business, c.items, procs[p].cr)
      ensures if Storable(old(procs)[p].items) then procs[p].cr.CreateEnqueued?
              else procs[p].cr == CreateDone(CreateRefused)
      ensures procs[p].cr.CreateEnqueued? ==>
                procs[p].cr.outbox == FanOut(View(), procs[p].business, InvoiceCreated(p),
                                             CreatedPayload(p, ProductSum(procs[p].items)))
    {
      ghost var before := View();
      var business, items := procs[p].business, procs[p].items;
      var totalCents, rows := PriceLines(items);
      var outbox := EnqueueEvent(business, InvoiceCreated(p), CreatedPayload(p, totalCents));
      var cr := if Storable(items) then CreateEnqueued(outbox) else CreateDone(CreateRefused);
      procs := procs[p := Create(business, items, cr)];
      Record(before, Step.EnqueueCreate(p));
    }

    method CommitCreate(p: Pid)
      requires Valid() && AtCreate(p) && procs[p].cr.CreateEnqueued?
      modifies this
      ensures Executed(old(View()), old(trace), Step.CommitCreate(p))
      ensures var c := old(procs)[p];
              p in invoices && invoices[p] == Invoice(c.business, c.items, ProductSum(c.items), DRAFT)
      ensures var c := old(procs)[p]; p in procs && procs[p] == Create(c.business, c.items, CreateDone(Created))
    {
      ghost var before := View();
      var business, items, outbox := procs[p].business, procs[p].items, procs[p].cr.outbox;
      var totalCents, rows := PriceLines(items);
      invoices, deliveries, procs :=
        invoices[p := Invoice(business, items, totalCents, DRAFT)], deliveries + outbox,
        procs[p := Create(business, items, CreateDone(Created))];
      Record(before, Step.CommitCreate(p));
    }

    /******* Crashes, the provider, endpoints *******/

    method Abort(p: Pid)
      requires Valid() && p in procs && !Finished(procs[p])
      modifies `procs, `locks, `trace
      ensures Executed(old(View()), old(trace), Step.Abort(p))
      ensures procs == old(procs)[p := Killed(old(procs)[p])]
      ensures !Guarded(old(procs)[p]) ==> locks == old(locks)
    {
      ghost var before := View();
      AbortCase(before, p);
      if Guarded(procs[p]) { locks := locks - {InvoiceOf(procs[p])}; }
      procs := procs[p := Killed(procs[p])];
      Record(before, Step.Abort(p));
    }

    method CreateEndpoint(e: EndpointId, business: BusinessId)
      requires Valid() && e !in endpoints
      modifies this
      ensures Executed(old(View()), old(trace), Step.CreateEndpoint(e, business))
      ensures endpoints == old(endpoints)[e := Endpoint(business, true)]
    {
      ghost var before := View();
      endpoints := endpoints[e := Endpoint(business, true)];
      Record(before, Step.CreateEndpoint(e, business));
    }

    /** Whether there was such an endpoint. */
    method DeactivateEndpoint(e: EndpointId, business: BusinessId) returns (found: bool)
      requires Valid()
      modifies this
      ensures Executed(old(View()), old(trace), Step.DeactivateEndpoint(e, business))
      ensures found <==> e in old(endpoints) && old(endpoints)[e].business == business
    {
      ghost var before := View();
      found := e in endpoints && endpoints[e].business == business;
      if found { endpoints := endpoints[e := endpoints[e].(isActive := false)]; }
      Record(before, Step.DeactivateEndpoint(e, business));
    }

    method PspDecides(p: Pid, stage: ChargeStage)
      requires Valid() && stage != Undecided && p in psp && psp[p].stage == Undecided
      modifies this
      ensures Executed(old(View()), old(trace), if stage.Charged? then PspCharges(p) else PspDeclines(p, stage.code))
    {
      ghost var before := View();
      psp := psp[p := psp[p].(stage := stage)];
      Record(before, if stage.Charged? then PspCharges(p) else PspDeclines(p, stage.code));
    }

    /******* Schedules *******/

    method ExecuteReserve(step: Step)
      requires Valid()
      requires step.StartPay? || step.CacheLookup? || step.LockInvoice? || step.InsertAttempt? || step.RefetchWinner? ||
               step.CommitReservation?
      modifies this
      ensures Valid() && trace == old(trace) + [step]
    {
      match step
      case StartPay(p, order) => if p !in procs { StartPay(p, order); } else { Wait(step); }
      case CacheLookup(p) => if AtPay(p) && procs[p].at.Started? { CacheLookup(p); } else { Wait(step); }
      case LockInvoice(p) => if AtPay(p) && procs[p].at.CacheMissed? { LockInvoice(p); } else { Wait(step); }
      case InsertAttempt(p, report) =>
        if AtPay(p) && procs[p].at.LockedOpen? { InsertAttempt(p, report); } else { Wait(step); }
      case RefetchWinner(p) => if AtPay(p) && procs[p].at.Conflicted? { RefetchWinner(p); } else { Wait(step); }
      case CommitReservation(p) => if AtPay(p) && procs[p].at.Inserted? { CommitReservation(p); } else { Wait(step); }
    }

    method ExecuteCharge(step: Step)
      requires Valid() &&
               (step.SendCharge? || step.ReplyArrives? || step.ReplyLost? || step.PspCharges? || step.PspDeclines?)
      modifies this
      ensures Valid() && trace == old(trace) + [step]
    {
      match step
      case SendCharge(p) => if AtPay(p) && procs[p].at.Reserved? { SendCharge(p); } else { Wait(step); }
      case ReplyArrives(p, pspRef) =>
        if AtPay(p) && procs[p].at.Sent? && p in psp && psp[p].stage != Undecided {
          var _ := AwaitReply(p, pspRef, None);
        } else {
          Wait(step);
        }
      case ReplyLost(p, error) =>
        if AtPay(p) && procs[p].at.Sent? { var _ := AwaitReply(p, "", Some(error)); } else { Wait(step); }
      case PspCharges(p) => if p in psp && psp[p].stage == Undecided { PspDecides(p, Charged); } else { Wait(step); }
      case PspDeclines(p, code) =>
        if p in psp && psp[p].stage == Undecided { PspDecides(p, Declined(code)); } else { Wait(step); }
    }

    method ExecuteOutcome(step: Step)
      requires Valid() && (step.FlushOutcome? || step.RelockInvoice? || step.EnqueueOutcome?)
      modifies this
      ensures Valid() && trace == old(trace) + [step]
    {
      match step
      case FlushOutcome(p) =>
        if AtPay(p) && procs[p].at.Replied? && !procs[p].at.reply.Lost? { FlushOutcome(p); } else { Wait(step); }
      case RelockInvoice(p, stale) =>
        if AtPay(p) && procs[p].at.Flushed? && procs[p].at.reply.Approved? {
          RelockInvoice(p, stale);
        } else {
          Wait(step);
        }
      case EnqueueOutcome(p) =>
        if AtPay(p) && procs[p].at.Relocked? && procs[p].at.reply.Approved? { EnqueueOutcome(p); }
        else if AtPay(p) && procs[p].at.Flushed? && procs[p].at.reply.Refused? { EnqueueOutcome(p); }
        else { Wait(step); }
    }

    method ExecuteRefresh(p: Pid)
      requires Valid()
      modifies this
      ensures Valid() && trace == old(trace) + [Step.RefreshAttempt(p)]
    {
      if AtPay(p) && procs[p].at.Refreshing? { RefreshAttempt(p); } else { Wait(Step.RefreshAttempt(p)); }
    }

    method ExecuteCommit(p: Pid)
      requires Valid()
      modifies this
      ensures Valid() && trace == old(trace) + [CommitOutcome(p)]
    {
      if AtPay(p) && procs[p].at.Replied? && procs[p].at.reply.Lost? { CommitUnknown(p); }
      else if AtPay(p) && procs[p].at.Enqueued? && procs[p].at.reply.Refused? { CommitFailure(p); }
      else if AtPay(p) && procs[p].at.Enqueued? && procs[p].at.reply.Approved? { CommitSuccess(p); }
      else { Wait(CommitOutcome(p)); }
    }

    method ExecuteMove(step: Step)
      requires Valid() && (step.StartMove? || step.ReadMove? || step.WriteMove? || step.CommitMove? || step.Abort?)
      modifies this
      ensures Valid() && trace == old(trace) + [step]
    {
      match step
      case StartMove(p, business, invoice, target) =>
        if p !in procs && target in {OPEN, VOID, UNCOLLECTIBLE} {
          StartMove(p, business, invoice, target);
        } else {
          Wait(step);
        }
      case ReadMove(p) => if AtMove(p) && procs[p].mv.MoveStarted? { ReadMove(p); } else { Wait(step); }
      case WriteMove(p) => if AtMove(p) && procs[p].mv.MoveRead? { WriteMove(p); } else { Wait(step); }
      case CommitMove(p) => if AtMove(p) && procs[p].mv.MoveWritten? { CommitMove(p); } else { Wait(step); }
      case Abort(p) => if p in procs && !Finished(procs[p]) { Abort(p); } else { Wait(step); }
    }

    method ExecuteCreate(step: Step)
      requires Valid() && (step.StartCreate? || step.EnqueueCreate? || step.CommitCreate? || step.CreateEndpoint? ||
                           step.DeactivateEndpoint?)
      modifies this
      ensures Valid() && trace == old(trace) + [step]
    {
      match step
      case StartCreate(p, business, customerExists, items) =>
        if p !in procs { StartCreate(p, business, customerExists, items); } else { Wait(step); }
      case EnqueueCreate(p) => if AtCreate(p) && procs[p].cr.Building? { EnqueueCreate(p); } else { Wait(step); }
      case CommitCreate(p) => if AtCreate(p) && procs[p].cr.CreateEnqueued? { CommitCreate(p); } else { Wait(step); }
      case CreateEndpoint(e, business) => if e !in endpoints { CreateEndpoint(e, business); } else { Wait(step); }
      case DeactivateEndpoint(e, business) => var _ := DeactivateEndpoint(e, business);
    }

    /** Any statement of any request, or any move of the provider. */
    method Execute(step: Step)
      requires Valid()
      modifies this
      ensures Valid() && trace == old(trace) + [step]
    {
      match step
      case StartPay(_, _) | CacheLookup(_) | LockInvoice(_)
         | InsertAttempt(_, _) | RefetchWinner(_) | CommitReservation(_) =>
        ExecuteReserve(step);
      case SendCharge(_) | ReplyArrives(_, _) | ReplyLost(_, _) | PspCharges(_) | PspDeclines(_, _) =>
        ExecuteCharge(step);
      case FlushOutcome(_) | RelockInvoice(_, _) | EnqueueOutcome(_) => ExecuteOutcome(step);
      case CommitOutcome(p) => ExecuteCommit(p);
      case RefreshAttempt(p) => ExecuteRefresh(p);
      case StartMove(_, _, _, _) | ReadMove(_) | WriteMove(_) | CommitMove(_) | Abort(_) => ExecuteMove(step);
      case StartCreate(_, _, _, _) | EnqueueCreate(_) | CommitCreate(_)
         | CreateEndpoint(_, _) | DeactivateEndpoint(_, _) =>
        ExecuteCreate(step);
    }

    /** What everybody else does while request p is between two statements. */
    method Interleave(p: Pid, steps: seq<Step>)
      requires Valid() && Others(p, steps)
      modifies this
      ensures Valid() && trace == old(trace) + steps
      ensures p in procs <==> p in old(procs)
      ensures p in procs ==> procs[p] == old(procs)[p]
    {
      for k := 0 to |steps|
        invariant Valid() && trace == old(trace) + steps[..k]
        invariant p in procs <==> p in old(procs)
        invariant p in procs ==> procs[p] == old(procs)[p]
      {
        LeavesAlone(cfg, View(), trace, steps[k], p);
        assert steps[..k + 1] == steps[..k] + [steps[k]];
        Execute(steps[k]);
      }
    }

    /******* process_payment *******/

    /** A statement that cannot get its lock ends when the request is cancelled or chosen as deadlock victim. */
    method GiveUp(p: Pid)
      requires Valid() && AtPay(p)
      requires if procs[p].at.LockedOpen? then Contended(View(), procs[p].order.invoice)
               else (procs[p].at.CacheMissed? || procs[p].at.Flushed?) && procs[p].order.invoice in locks
      modifies `procs, `locks, `trace
      ensures Executed(old(View()), old(trace), Step.Abort(p))
      ensures NotItsOwn(p)
      ensures Continues(p, old(procs)[p].order) && procs[p].at == PayDone(Died)
    {
      ghost var i := procs[p].order.invoice;
      ValidInv();
      PayFacts(cfg, View(), p);
      if procs[p].at.LockedOpen? {
        ghost var a :| a in attempts && attempts[a].invoice == i && IsPay(View(), a) && Uncommitted(procs[a].at);
        Abort(p);
        assert a in attempts && attempts[a].invoice == i && IsPay(View(), a) && Uncommitted(procs[a].at);
        assert Contended(View(), i);
      } else {
        Abort(p);
      }
    }

    /** The insert, with the constraint that the database happens to name if the row violates both. */
    method Insert(p: Pid, report: Report)
      requires Valid() && AtPay(p) && procs[p].at.LockedOpen?
      modifies `procs, `locks, `trace
      ensures Valid() && Extends(trace, old(trace))
      ensures NotItsOwn(p)
      ensures Continues(p, old(procs)[p].order) &&
              (procs[p].at.Inserted? || procs[p].at.Conflicted? || procs[p].at.PayDone?)
    {
      var taken := FindByKey(procs[p].order);
      var named := if !HasPending(procs[p].order.invoice) then IdempotencyIndex
                   else if taken.None? then PendingIndex
                   else report;
      InsertAttempt(p, named);
      if procs[p].at.LockedOpen? { GiveUp(p); }
    }

    /** Step 1 and the lock and check of step 2. */
    method LookUpAndLock(p: Pid, o: Order, others: nat -> seq<Step>)
      requires Valid() && p !in procs && forall k: nat :: Others(p, others(k))
      modifies this
      ensures Valid() && Extends(trace, old(trace))
      ensures NotItsOwn(p)
      ensures Continues(p, o) && (procs[p].at.LockedOpen? || procs[p].at.PayDone?)
    {
      StartPay(p, o);
      Interleave(p, others(0));
      CacheLookup(p);
      if procs[p].at.PayDone? { return; }
      Interleave(p, others(1));
      LockInvoice(p);
      if procs[p].at.CacheMissed? { GiveUp(p); }
    }

    /** The insert of step 2 and the first commit. */
    method InsertAndCommit(p: Pid, o: Order, report: Report, others: nat -> seq<Step>)
      requires Valid() && p in procs && procs[p].Pay? && procs[p].order == o && procs[p].at.LockedOpen?
      requires forall k: nat :: Others(p, others(k))
      modifies this
      ensures Valid() && Extends(trace, old(trace))
      ensures NotItsOwn(p)
      ensures Continues(p, o) && (procs[p].at.Reserved? || procs[p].at.PayDone?)
    {
      ghost var log := trace;
      Interleave(p, others(2));
      Insert(p, report);
      assert Extends(trace, log);
      if procs[p].at.PayDone? { return; }
      Interleave(p, others(3));
      assert Extends(trace, log);
      ghost var before := trace;
      if procs[p].at.Conflicted? {
        RefetchWinner(p);
      } else {
        CommitReservation(p);
      }
      ExtendsAgain(trace, before, log);
    }

    /** Step 3: the provider is called with no lock held. */
    method CallProvider(p: Pid, o: Order, pspRef: string, lost: Option<PspError>, others: nat -> seq<Step>)
      requires Valid() && p in procs && procs[p] == Pay(o, Reserved) && forall k: nat :: Others(p, others(k))
      modifies this
      ensures Valid() && Extends(trace, old(trace))
      ensures Continues(p, o) && procs[p].at.Replied?
      ensures RepliedWith(View(), p, procs[p].at.reply)
      ensures FromReply(cfg, trace, p, pspRef, lost, procs[p].at.reply)
    {
      Interleave(p, others(4));
      SendCharge(p);
      Interleave(p, others(5));
      var _ := AwaitReply(p, pspRef, lost);
    }

    /** Step 4 after a success: the invoice is locked and checked again and paid, with its event. */
    method SettleSuccess(p: Pid, o: Order, stale: bool, others: nat -> seq<Step>)
      requires Valid() && p in procs && procs[p].Pay? && procs[p].order == o && procs[p].at.Flushed? &&
               procs[p].at.reply.Approved?
      requires forall k: nat :: Others(p, others(k))
      modifies this
      ensures Valid() && Extends(trace, old(trace))
      ensures Continues(p, o) && (procs[p].at.Refreshing? || procs[p].at.PayDone?)
    {
      RelockInvoice(p, stale && !cfg.freshReread);
      if procs[p].at.Flushed? { GiveUp(p); }
      if procs[p].at.PayDone? { return; }
      Interleave(p, others(8));
      EnqueueOutcome(p);
      Interleave(p, others(9));
      CommitSuccess(p);
    }

    /** Step 4: the outcome is written, with the invoice and the outbox, by the second commit. */
    method Resolve(p: Pid, o: Order, stale: bool, others: nat -> seq<Step>)
      requires Valid() && p in procs && procs[p].Pay? && procs[p].order == o && procs[p].at.Replied?
      requires forall k: nat :: Others(p, others(k))
      modifies this
      ensures Valid() && Extends(trace, old(trace))
      ensures Continues(p, o) && (procs[p].at.Refreshing? || procs[p].at.PayDone?)
    {
      ghost var log := trace;
      Interleave(p, others(6));
      if procs[p].at.reply.Lost? {
        CommitUnknown(p);
        return;
      }
      FlushOutcome(p);
      Interleave(p, others(7));
      assert Extends(trace, log);
      ghost var flushed := trace;
      if procs[p].at.reply.Approved? {
        SettleSuccess(p, o, stale, others);
      } else {
        EnqueueOutcome(p);
        Interleave(p, others(8));
        CommitFailure(p);
      }
      ExtendsAgain(trace, flushed, log);
    }

    /** The connection is lost between the second commit and the read after it. */
    method LoseConnection(p: Pid)
      requires Valid() && AtPay(p) && procs[p].at.Refreshing?
      modifies `procs, `locks, `trace
      ensures Executed(old(View()), old(trace), Step.Abort(p))
      ensures p in procs && procs[p] == Pay(old(procs)[p].order, PayDone(Died)) && Recorded(View(), p)
    {
      ValidInv();
      PayFacts(cfg, View(), p);
      RowFacts(cfg, View(), p);
      Abort(p);
    }

    /** The row is read again after the second commit, unless the connection is lost there. */
    method Refresh(p: Pid, o: Order, connectionLost: bool, others: nat -> seq<Step>)
      requires Valid() && p in procs && procs[p] == Pay(o, Refreshing) && forall k: nat :: Others(p, others(k))
      modifies this
      ensures Valid() && Extends(trace, old(trace))
      ensures p in procs && procs[p].Pay? && procs[p].order == o && procs[p].at.PayDone? && Reports(attempts, procs[p])
      ensures procs[p].at.result.Died? <==> connectionLost
      ensures connectionLost ==> Recorded(View(), p)
    {
      Interleave(p, others(10));
      if connectionLost {
        LoseConnection(p);
      } else {
        RefreshAttempt(p);
      }
    }

    /** Steps 1 to 3, up to the provider's reply. */
    method PayUpToReply(p: Pid, o: Order, report: Report, pspRef: string, lost: Option<PspError>,
                        others: nat -> seq<Step>)
      requires Valid() && p !in procs && forall k: nat :: Others(p, others(k))
      modifies this
      ensures Valid() && Extends(trace, old(trace))
      ensures Continues(p, o) && (procs[p].at.Replied? || (procs[p].at.PayDone? && NotItsOwn(p)))
      ensures procs[p].at.Replied? ==>
                && RepliedWith(View(), p, procs[p].at.reply)
                && FromReply(cfg, trace, p, pspRef, lost, procs[p].at.reply)
    {
      ghost var log := trace;
      LookUpAndLock(p, o, others);
      if procs[p].at.LockedOpen? {
        ghost var locked := trace;
        InsertAndCommit(p, o, report, others);
        ExtendsAgain(trace, locked, log);
      }
      if procs[p].at.Reserved? {
        ghost var reserved := trace;
        CallProvider(p, o, pspRef, lost, others);
        ExtendsAgain(trace, reserved, log);
      }
    }

    /** The rest of the call. */
    method PayAfterReply(p: Pid, o: Order, stale: bool, connectionLost: bool, others: nat -> seq<Step>)
      requires Valid() && p in procs && procs[p].Pay? && procs[p].order == o && procs[p].at.Replied?
      requires RepliedWith(View(), p, procs[p].at.reply) && forall k: nat :: Others(p, others(k))
      modifies this
      ensures Valid() && Extends(trace, old(trace))
      ensures p in procs && procs[p].Pay? && procs[p].order == o && procs[p].at.PayDone? && Reports(attempts, procs[p])
      ensures procs[p].at.result.Died? ==>
                || (Held(o.invoice) && Unsettled(View(), p))
                || (connectionLost && Recorded(View(), p))
      ensures RepliedWith(View(), p, old(procs)[p].at.reply)
    {
      ghost var log, before, reply := trace, View(), procs[p].at.reply;
      Resolve(p, o, stale, others);
      if procs[p].at.Refreshing? {
        ghost var committed := trace;
        Refresh(p, o, connectionLost, others);
        ExtendsAgain(trace, committed, log);
      }
      RepliedLater(cfg, trace, View(), log, before, p, reply);
    }

    /** The whole call, with any behaviour of everybody else between its statements. It runs to
        an end, and what it answers is true of the tables at that moment: a returned attempt is
        the row of this invoice, key and body with the status it holds, a success was charged
        (and is the one charge on the invoice if no two finalizes of it overlapped), a failure was
        not; a call that raises after it reached the provider leaves its attempt pending. Its own
        attempt it returns as the reply makes it: pending with the error's code if the client
        raised an error, otherwise as the provider decided, with the reference it gave, or pending
        if it had not decided by then. It dies only where it would wait for a lock, with its
        attempt pending, or in the read after the second commit, with its outcome on record. */
    method ProcessPayment(p: Pid, o: Order, report: Report, pspRef: string, lost: Option<PspError>, stale: bool,
                          connectionLost: bool, others: nat -> seq<Step>)
      returns (result: PayResult)
      requires Valid() && p !in procs && forall k: nat :: Others(p, others(k))
      modifies this
      ensures Valid() && Extends(trace, old(trace))
      ensures p in procs && procs[p] == Pay(o, PayDone(result))
      ensures Truthful(cfg, View(), p, o, result)
      ensures result.Returned? && result.status == SUCCEEDED && FinalizesApart(cfg, trace, o.invoice) ==>
                Charges(View(), o.invoice) == {result.attempt}
      ensures result.Returned? && !result.isCached ==>
                && result.attempt == p && p in attempts
                && (lost.Some? ==> result.status == PENDING && attempts[p].failureCode == Some(CodeOf(lost.value)))
                && (lost.None? && result.status == SUCCEEDED ==> attempts[p].pspRef == Some(pspRef))
                && (lost.None? && result.status == PENDING ==>
                      NoAnswerYet(cfg, trace, p) && attempts[p].failureCode == Some("psp_timeout"))
      ensures result.Died? ==>
                || (Held(o.invoice) && Unsettled(View(), p))
                || (connectionLost && Recorded(View(), p))
    {
      ghost var log := trace;
      PayUpToReply(p, o, report, pspRef, lost, others);
      if procs[p].at.Replied? {
        ghost var replied, reply := trace, procs[p].at.reply;
        PayAfterReply(p, o, stale, connectionLost, others);
        ExtendsAgain(trace, replied, log);
        if lost.None? && reply.Lost? { StillNoAnswer(cfg, trace, replied, p); }
      }
      result := procs[p].at.result;
      ValidInv();
      AnswerIsTrue(cfg, View(), p);
      if result.Returned? && result.status == SUCCEEDED && FinalizesApart(cfg, trace, o.invoice) {
        SoleCharge(cfg, trace, View(), o.invoice, result.attempt);
      }
    }

    /******* transition_invoice_state and create_invoice *******/

    /** The read half of a transition. */
    method StartAndRead(p: Pid, business: BusinessId, invoice: Pid, target: InvoiceState, others: nat -> seq<Step>)
      requires Valid() && p !in procs && target in {OPEN, VOID, UNCOLLECTIBLE} && forall k: nat :: Others(p, others(k))
      modifies this
      ensures Valid() && Extends(trace, old(trace))
      ensures p in procs && procs[p].Move? && procs[p] == Move(business, invoice, target, procs[p].mv)
      ensures procs[p].mv.MoveRead? || procs[p].mv == MoveDone(MoveNotFound) || procs[p].mv == MoveDone(MoveRefused)
      ensures procs[p].mv == MoveDone(MoveNotFound) <==> !Owns(business, invoice)
      ensures procs[p].mv == MoveDone(MoveRefused) <==>
                Owns(business, invoice) && !AssertTransitionAllowed(invoices[invoice].state, target).Permitted?
    {
      StartMove(p, business, invoice, target);
      Interleave(p, others(0));
      ReadMove(p);
    }

    /** The write half of a transition. */
    method WriteAndCommit(p: Pid, others: nat -> seq<Step>) returns (result: MoveResult)
      requires Valid() && AtMove(p) && procs[p].mv.MoveRead? && forall k: nat :: Others(p, others(k))
      modifies this
      ensures Valid() && Extends(trace, old(trace))
      ensures p in procs && procs[p] == old(procs)[p].(mv := MoveDone(result))
      ensures Owns(procs[p].business, procs[p].invoice)
      ensures result.MoveApplied? ==> invoices[procs[p].invoice].state == procs[p].target
      ensures result.MoveApplied? || (result.MoveDied? && MoveHeld(procs[p].invoice, procs[p].target))
    {
      ValidInv();
      MoveFacts(cfg, View(), p);
      WriteMove(p);
      if procs[p].mv.MoveWritten? {
        Interleave(p, others(2));
        CommitMove(p);
      } else {
        Abort(p);
      }
      result := procs[p].mv.moved;
    }

    /** The row is locked, or (where reading and writing are one step) no longer in the state that was read. */
    ghost predicate MoveHeld(i: Pid, target: InvoiceState)
      reads this
    {
      i in locks || (Atomic(cfg, target) && i in invoices && !Allowed(invoices[i].state, target))
    }

    /** A transition that reports success has just put the business's own invoice into the target
        state; it answers not found exactly if the business has no such invoice, and is refused
        only by a state that does not permit the target; it dies only where it cannot write. */
    method TransitionInvoiceState(p: Pid, business: BusinessId, invoice: Pid, target: InvoiceState,
                                  others: nat -> seq<Step>)
      returns (result: MoveResult)
      requires Valid() && p !in procs && target in {OPEN, VOID, UNCOLLECTIBLE} && forall k: nat :: Others(p, others(k))
      modifies this
      ensures Valid() && Extends(trace, old(trace))
      ensures p in procs && procs[p] == Move(business, invoice, target, MoveDone(result))
      ensures result.MoveApplied? ==> Owns(business, invoice) && invoices[invoice].state == target
      ensures result.MoveNotFound? <==> !Owns(business, invoice)
      ensures result.MoveRefused? ==>
                Owns(business, invoice) && !AssertTransitionAllowed(invoices[invoice].state, target).Permitted?
      ensures result.MoveDied? ==> MoveHeld(invoice, target)
    {
      StartAndRead(p, business, invoice, target, others);
      ghost var read := trace;
      if procs[p].mv.MoveRead? {
        Interleave(p, others(1));
        result := WriteAndCommit(p, others);
        assert Extends(trace, read);
        ExtendsAgain(trace, read, old(trace));
      } else {
        result := procs[p].mv.moved;
      }
    }

    /** A draft with its total is created exactly if the customer exists and the database can store the lines. */
    method CreateInvoice(p: Pid, business: BusinessId, customerExists: bool, items: seq<LineItem>,
                         others: nat -> seq<Step>)
      returns (result: CreateResult)
      requires Valid() && p !in procs && forall k: nat :: Others(p, others(k))
      modifies this
      ensures Valid() && Extends(trace, old(trace))
      ensures p in procs && procs[p] == Create(business, items, CreateDone(result))
      ensures result.Created? <==> customerExists && Storable(items)
      ensures result.Created? ==> p in invoices && invoices[p] == Invoice(business, items, ProductSum(items), DRAFT)
    {
      StartCreate(p, business, customerExists, items);
      Interleave(p, others(0));
      if customerExists {
        EnqueueCreate(p);
        Interleave(p, others(1));
        if procs[p].cr.CreateEnqueued? { CommitCreate(p); }
      }
      result := procs[p].cr.created;
    }
  }
}
