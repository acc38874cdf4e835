/** When payments block each other for good: the claim that the row lock serializes them
    fails, and exactly one pattern of two calls makes it fail. */
module Deadlocks {
  import opened InvoiceStates
  import opened Options
  import opened PaymentProtocol
  import opened ProtocolInvariant
  import opened ProtocolFrames
  import opened PaymentSafety
  import opened StatementCases
  import opened PaymentScenarios
  import opened AssumptionsNeeded

  /******* The pattern *******/

  /** p holds the invoice row and waits for the index entry q is changing; q waits for the row. */
  ghost predicate Deadlocked(s: State, p: Pid, q: Pid) {
    && IsPay(s, p) && s.procs[p].at.LockedOpen? && s.procs[p].at.totalCents > 0
    && IsPay(s, q) && s.procs[q].at.Flushed? && s.procs[q].at.reply.Approved?
    && s.procs[p].order.invoice == s.procs[q].order.invoice
  }

  lemma HolderWaits(cfg: Config, s: State, step: Step, p: Pid, q: Pid)
    requires Inv(cfg, s) && Deadlocked(s, p, q) && Actor(step) == Some(p) && !step.Abort?
    ensures Apply(cfg, s, step) == s
  {
    if step.InsertAttempt? {
      PayFacts(cfg, s, q);
      RowFacts(cfg, s, q);
      assert Contended(s, s.procs[p].order.invoice);
    } else {
      Idles(cfg, s, step);
    }
  }

  lemma FlusherWaits(cfg: Config, s: State, step: Step, p: Pid, q: Pid)
    requires Inv(cfg, s) && Deadlocked(s, p, q) && Actor(step) == Some(q) && !step.Abort?
    ensures Apply(cfg, s, step) == s
  {
    if step.RelockInvoice? {
      assert Holds(cfg, s, LocksClause);
      assert HoldsLock(s, p);
    } else {
      Idles(cfg, s, step);
    }
  }

  /** A call that has locked the invoice can only insert; one that has flushed an approval can only re-lock. */
  lemma Idles(cfg: Config, s: State, step: Step)
    requires Actor(step).Some? && IsPay(s, step.p) && !step.Abort?
    requires s.procs[step.p].at.LockedOpen? || (s.procs[step.p].at.Flushed? && s.procs[step.p].at.reply.Approved?)
    requires s.procs[step.p].at.LockedOpen? ==> !step.InsertAttempt?
    requires s.procs[step.p].at.Flushed? ==> !step.RelockInvoice?
    ensures Apply(cfg, s, step) == s
  {
    if step.CommitOutcome? || step.EnqueueOutcome? || step.FlushOutcome? || step.RelockInvoice? {
    } else if step.StartPay? || step.StartMove? || step.StartCreate? || step.CacheLookup? || step.LockInvoice? {
    }
  }

  /** Two such calls stay where they are on every schedule that aborts neither. */
  lemma {:induction false} DeadlockLasts(cfg: Config, s: State, steps: seq<Step>, p: Pid, q: Pid)
    requires Inv(cfg, s) && Deadlocked(s, p, q)
    requires Abort(p) !in steps && Abort(q) !in steps
    ensures Deadlocked(Run(cfg, s, steps), p, q)
    decreases |steps|
  {
    if steps != [] {
      var front, step := steps[..|steps| - 1], steps[|steps| - 1];
      var m := Run(cfg, s, front);
      DeadlockLasts(cfg, s, front, p, q);
      RunKeeps(cfg, s, front);
      if Actor(step) == Some(p) {
        HolderWaits(cfg, m, step, p, q);
      } else if Actor(step) == Some(q) {
        FlusherWaits(cfg, m, step, p, q);
      } else {
        RequestStep(cfg, m, step, p);
        RequestStep(cfg, m, step, q);
      }
    }
  }

  ghost const DEADLOCK: seq<Step> :=
    OPEN_STEPS + ReserveSteps(3, FIRST_PAYMENT) + ChargeSteps(3, "ref") +
      [StartPay(4, SECOND_PAYMENT), CacheLookup(4), LockInvoice(4)]

  /** It happens: a second call that locks the invoice between the first one's flush and its re-lock. */
  lemma DeadlockHappens(cfg: Config)
    ensures Deadlocked(Run(cfg, EMPTY, DEADLOCK), 4, 3)
  {
    var r := Reserving(cfg, Opened(), 3, FIRST_PAYMENT);
    var f := Charging(r, 3, FIRST_PAYMENT, "ref");
    OpenRuns(cfg);
    ReserveRuns(cfg, Opened(), 3, FIRST_PAYMENT);
    ChargeRuns(cfg, r, 3, FIRST_PAYMENT, "ref");
    RunConcat(cfg, EMPTY, OPEN_STEPS, ReserveSteps(3, FIRST_PAYMENT));
    RunConcat(cfg, EMPTY, OPEN_STEPS + ReserveSteps(3, FIRST_PAYMENT), ChargeSteps(3, "ref"));
    RunConcat(cfg, EMPTY, OPEN_STEPS + ReserveSteps(3, FIRST_PAYMENT) + ChargeSteps(3, "ref"),
              [StartPay(4, SECOND_PAYMENT), CacheLookup(4), LockInvoice(4)]);
    SecondLocks(cfg, f);
  }

  lemma SecondLocks(cfg: Config, f: State)
    requires 4 !in f.procs && 4 !in f.attempts && !KeyTaken(f, SECOND_PAYMENT)
    requires 0 in f.invoices && 0 !in f.locks && f.invoices[0].business == 0 && f.invoices[0].state == OPEN
    ensures Run(cfg, f, [StartPay(4, SECOND_PAYMENT), CacheLookup(4), LockInvoice(4)]) ==
            At(f, 4, SECOND_PAYMENT, LockedOpen(f.invoices[0].totalCents)).(locks := f.locks[0 := 4])
  {
    var rest: seq<Step> := [LockInvoice(4)];
    assert [StartPay(4, SECOND_PAYMENT), CacheLookup(4), LockInvoice(4)] ==
      [StartPay(4, SECOND_PAYMENT)] + ([CacheLookup(4)] + rest);
    RunFirst(cfg, f, StartPay(4, SECOND_PAYMENT), [CacheLookup(4)] + rest);
    RunFirst(cfg, At(f, 4, SECOND_PAYMENT, Started), CacheLookup(4), rest);
    LookupMisses(cfg, f, 4, SECOND_PAYMENT);
    RunOne(cfg, At(f, 4, SECOND_PAYMENT, CacheMissed), LockInvoice(4));
    LockTaken(cfg, f, 4, SECOND_PAYMENT);
  }

  /******* It is the only one *******/

  /** No statement of the request moves it on; only an abort can end it. */
  ghost predicate Stuck(cfg: Config, s: State, p: Pid) {
    forall step :: Actor(step) == Some(p) && !step.Abort? ==> Apply(cfg, s, step) == s
  }

  /** The next statement of w needs the row of invoice i, which another request has locked. */
  ghost predicate WaitsForRow(s: State, w: Pid, i: Pid) {
    && i in s.locks && i in s.invoices && w in s.procs
    && match s.procs[w]
       case Pay(o, pc) =>
         && o.invoice == i
         && ((pc.CacheMissed? && s.invoices[i].business == o.business) || (pc.Flushed? && pc.reply.Approved?))
       case Move(_, invoice, _, mv) => invoice == i && mv.MoveRead?
       case Create(_, _, _) => false
  }

  /** The next statement of w inserts an attempt on i, next to one that another request is changing. */
  ghost predicate WaitsForIndex(s: State, w: Pid, i: Pid) {
    IsPay(s, w) && s.procs[w].order.invoice == i && s.procs[w].at.LockedOpen? && s.procs[w].at.totalCents > 0 &&
      Contended(s, i)
  }

  ghost predicate Contends(s: State, q: Pid, i: Pid) {
    q in s.attempts && s.attempts[q].invoice == i && IsPay(s, q) && Uncommitted(s.procs[q].at)
  }

  ghost predicate HoldsRow(s: State, p: Pid, i: Pid) {
    i in s.locks && s.locks[i] == p
  }

  ghost predicate SomeoneWaits(s: State, i: Pid) {
    exists w: Pid :: WaitsForRow(s, w, i) || WaitsForIndex(s, w, i)
  }

  /** The requests in the queue of an invoice: those that wait there and those they wait for. */
  ghost predicate Queued(s: State, x: Pid, i: Pid) {
    WaitsForRow(s, x, i) || WaitsForIndex(s, x, i) || HoldsRow(s, x, i) || Contends(s, x, i)
  }

  ghost predicate QueueStuck(cfg: Config, s: State, i: Pid) {
    forall x: Pid :: Queued(s, x, i) ==> Stuck(cfg, s, x)
  }

  ghost predicate DeadlockOn(s: State, i: Pid) {
    exists p: Pid, q: Pid :: Deadlocked(s, p, q) && s.procs[p].order.invoice == i
  }

  /* A locked row stops everyone who needs it. */

  lemma CallWaits(cfg: Config, s: State, step: Step, i: Pid)
    requires Actor(step).Some? && !step.Abort? && WaitsForRow(s, step.p, i) && IsPay(s, step.p)
    ensures Apply(cfg, s, step) == s
  {
    if s.procs[step.p].at.CacheMissed? {
      if !step.LockInvoice? { LookedUpIdles(cfg, s, step); }
    } else if !step.RelockInvoice? {
      Idles(cfg, s, step);
    }
  }

  lemma LookedUpIdles(cfg: Config, s: State, step: Step)
    requires Actor(step).Some? && IsPay(s, step.p) && s.procs[step.p].at.CacheMissed? && !step.Abort? &&
             !step.LockInvoice?
    ensures Apply(cfg, s, step) == s
  {
    if step.CommitOutcome? || step.EnqueueOutcome? || step.FlushOutcome? || step.RelockInvoice? {
    } else if step.StartPay? || step.StartMove? || step.StartCreate? || step.CacheLookup? || step.InsertAttempt? {
    }
  }

  lemma MoveWaits(cfg: Config, s: State, step: Step, i: Pid)
    requires Actor(step).Some? && !step.Abort? && WaitsForRow(s, step.p, i) && !IsPay(s, step.p)
    ensures Apply(cfg, s, step) == s
  {
    if step.StartPay? || step.StartMove? || step.StartCreate? {
    } else if step.ReadMove? || step.WriteMove? || step.CommitMove? {
    } else if step.EnqueueCreate? || step.CommitCreate? {
    } else {
      CallStays(cfg, s, step);
    }
  }

  lemma DeadlockSticks(cfg: Config, s: State, i: Pid, p: Pid, q: Pid)
    requires Inv(cfg, s) && Deadlocked(s, p, q) && s.procs[p].order.invoice == i
    ensures QueueStuck(cfg, s, i)
  {
    assert Holds(cfg, s, LocksClause) && HoldsLock(s, p);
    PayFacts(cfg, s, q);
    forall x: Pid, step | Queued(s, x, i) && Actor(step) == Some(x) && !step.Abort? ensures Apply(cfg, s, step) == s {
      if WaitsForRow(s, x, i) {
        if IsPay(s, x) { CallWaits(cfg, s, step, i); } else { MoveWaits(cfg, s, step, i); }
      } else if Contends(s, x, i) {
        PayFacts(cfg, s, x);
        RowFacts(cfg, s, q);
        TwoAttempts(cfg, s, x, q);
        FlusherWaits(cfg, s, step, p, q);
      } else {
        if WaitsForIndex(s, x, i) { assert HoldsLock(s, x); }
        HolderWaits(cfg, s, step, p, q);
      }
    }
  }

  /* Anyone else in the queue can move. */

  lemma HolderMoves(cfg: Config, s: State, p: Pid)
    requires Inv(cfg, s) && IsPay(s, p) && Guarded(s.procs[p]) && !s.procs[p].at.LockedOpen?
    ensures !Stuck(cfg, s, p)
  {
    OwnRowOfHolder(cfg, s, p);
    var pc := s.procs[p].at;
    var step := if pc.Inserted? then CommitReservation(p)
                else if pc.Relocked? then EnqueueOutcome(p)
                else CommitOutcome(p);
    if pc.Enqueued? { ApprovedCase(s, p); }
    assert Apply(cfg, s, step).procs[p].at != pc;
  }

  lemma OwnRowOfHolder(cfg: Config, s: State, p: Pid)
    requires Inv(cfg, s) && IsPay(s, p) &&
             (s.procs[p].at.Relocked? || s.procs[p].at.Enqueued? || s.procs[p].at.Inserted?)
    ensures !s.procs[p].at.Inserted? ==> p in s.attempts && s.procs[p].order.invoice in s.invoices
    ensures s.procs[p].at.Relocked? ==> s.procs[p].at.reply.Approved?
  {
    PayFacts(cfg, s, p);
    if !s.procs[p].at.Inserted? { OwnRow(cfg, s, p); }
  }

  lemma MoverMoves(cfg: Config, s: State, p: Pid)
    requires Inv(cfg, s) && IsMove(s, p) && s.procs[p].mv.MoveWritten?
    ensures !Stuck(cfg, s, p)
  {
    MoveFacts(cfg, s, p);
    assert Apply(cfg, s, CommitMove(p)).procs[p].mv.MoveDone?;
  }

  lemma InserterMoves(cfg: Config, s: State, p: Pid)
    requires Inv(cfg, s) && IsPay(s, p) && s.procs[p].at.LockedOpen? && !WaitsForIndex(s, p, s.procs[p].order.invoice)
    ensures !Stuck(cfg, s, p)
  {
    var report := if PendingOn(s, s.procs[p].order.invoice) then PendingIndex else IdempotencyIndex;
    InsertCases(s, p, report);
    assert !Apply(cfg, s, InsertAttempt(p, report)).procs[p].at.LockedOpen?;
  }

  lemma ContenderMoves(cfg: Config, s: State, q: Pid, i: Pid)
    requires Inv(cfg, s) && Contends(s, q, i) && !(s.procs[q].at.Flushed? && s.procs[q].at.reply.Approved?)
    ensures !Stuck(cfg, s, q)
  {
    var pc := s.procs[q].at;
    PayFacts(cfg, s, q);
    if Guarded(s.procs[q]) {
      HolderMoves(cfg, s, q);
    } else if pc.Flushed? {
      assert Apply(cfg, s, EnqueueOutcome(q)).procs[q].at.Enqueued?;
    } else {
      RefusedCase(s, q);
      assert Apply(cfg, s, CommitOutcome(q)).procs[q].at.Refreshing?;
    }
  }

  /** A queue all of whose requests are stuck has a holder that waits for the index, and what it waits
      for is the other call of the pattern. */
  lemma StuckQueueIsDeadlock(cfg: Config, s: State, i: Pid)
    requires Inv(cfg, s) && SomeoneWaits(s, i) && QueueStuck(cfg, s, i)
    ensures DeadlockOn(s, i)
  {
    var h := IndexWaiter(cfg, s, i);
    ContenderExists(s, i);
    var q: Pid :| Contends(s, q, i);
    assert Queued(s, q, i);
    RowFacts(cfg, s, q);
    if !(s.procs[q].at.Flushed? && s.procs[q].at.reply.Approved?) { ContenderMoves(cfg, s, q, i); }
    assert Deadlocked(s, h, q);
  }

  lemma ContenderExists(s: State, i: Pid)
    requires Contended(s, i)
    ensures exists q: Pid :: Contends(s, q, i)
  {
    var q: Pid :| q in s.attempts && s.attempts[q].invoice == i && IsPay(s, q) && Uncommitted(s.procs[q].at);
    assert Contends(s, q, i);
  }

  lemma IndexWaiter(cfg: Config, s: State, i: Pid) returns (h: Pid)
    requires Inv(cfg, s) && SomeoneWaits(s, i) && QueueStuck(cfg, s, i)
    ensures WaitsForIndex(s, h, i)
  {
    var w: Pid :| WaitsForRow(s, w, i) || WaitsForIndex(s, w, i);
    if WaitsForIndex(s, w, i) { return w; }
    h := s.locks[i];
    assert Holds(cfg, s, LocksClause) && LockHeld(s, i);
    assert Queued(s, h, i);
    if IsMove(s, h) {
      MoverMoves(cfg, s, h);
    } else if !s.procs[h].at.LockedOpen? {
      HolderMoves(cfg, s, h);
    } else if !WaitsForIndex(s, h, i) {
      InserterMoves(cfg, s, h);
    }
  }

  lemma DeadlockWaits(cfg: Config, s: State, i: Pid)
    requires Inv(cfg, s) && DeadlockOn(s, i)
    ensures SomeoneWaits(s, i)
  {
    var p: Pid, q: Pid :| Deadlocked(s, p, q) && s.procs[p].order.invoice == i;
    PayFacts(cfg, s, q);
    RowFacts(cfg, s, q);
    assert WaitsForIndex(s, p, i);
  }

  /** Somebody waits at an invoice and nobody in the queue there can move, exactly if the queue
      holds the pattern: one call between its flush and its re-lock, another between its lock
      and its insert. Whatever else waits there, some request of the queue can move. */
  lemma StuckIffDeadlock(cfg: Config, s: State, i: Pid)
    requires Inv(cfg, s)
    ensures SomeoneWaits(s, i) && QueueStuck(cfg, s, i) <==> DeadlockOn(s, i)
  {
    if DeadlockOn(s, i) {
      var p: Pid, q: Pid :| Deadlocked(s, p, q) && s.procs[p].order.invoice == i;
      DeadlockWaits(cfg, s, i);
      DeadlockSticks(cfg, s, i, p, q);
    } else if SomeoneWaits(s, i) && QueueStuck(cfg, s, i) {
      StuckQueueIsDeadlock(cfg, s, i);
    }
  }

  /** Aborting either call of the pattern frees the other. */
  lemma AbortFreesOther(cfg: Config, s: State, p: Pid, q: Pid)
    requires Inv(cfg, s) && Deadlocked(s, p, q)
    ensures !Stuck(cfg, DoAbort(s, p), q) && !Stuck(cfg, DoAbort(s, q), p)
  {
    AbortFreesFlusher(cfg, s, p, q);
    AbortFreesHolder(cfg, s, p, q);
  }

  lemma AbortFreesFlusher(cfg: Config, s: State, p: Pid, q: Pid)
    requires Inv(cfg, s) && Deadlocked(s, p, q)
    ensures !Stuck(cfg, DoAbort(s, p), q)
  {
    var s', i := DoAbort(s, p), s.procs[q].order.invoice;
    AbortCase(s, p);
    assert Holds(cfg, s, LocksClause) && HoldsLock(s, p);
    PayFacts(cfg, s, q);
    RowFacts(cfg, s, q);
    assert i in s'.invoices && i !in s'.locks && s'.procs[q] == s.procs[q];
    assert !DoRelockInvoice(cfg, s', q, false).procs[q].at.Flushed?;
    assert Apply(cfg, s', RelockInvoice(q, false)) != s';
  }

  lemma AbortFreesHolder(cfg: Config, s: State, p: Pid, q: Pid)
    requires Inv(cfg, s) && Deadlocked(s, p, q)
    ensures !Stuck(cfg, DoAbort(s, q), p)
  {
    var s', i := DoAbort(s, q), s.procs[p].order.invoice;
    AbortKeeps(cfg, s, q);
    AbortCase(s, q);
    PayFacts(cfg, s, q);
    RowFacts(cfg, s, q);
    assert s'.procs[p] == s.procs[p];
    if Contended(s', i) {
      ContenderExists(s', i);
      var a: Pid :| Contends(s', a, i);
      PayFacts(cfg, s, a);
      TwoAttempts(cfg, s, a, q);
    }
    InserterMoves(cfg, s', p);
  }
}
