/** The schedules on which finalize behaves for one invoice: no two finalizes of it are
    between their read and their commit at the same time. Whatever happens to other
    invoices, at most one attempt of this one has then not failed. And if all invoices
    are like that, the service runs exactly as if a finalize wrote only a row that is
    still in the state it read. */
module FinalizeSchedules {
  import opened InvoiceStates
  import opened Options
  import opened PaymentProtocol
  import opened ProtocolInvariant
  import opened ProtocolFrames

  /** The transition has read its invoice and not committed. */
  ghost predicate InFlight(s: State, p: Pid) {
    IsMove(s, p) && (s.procs[p].mv.MoveRead? || s.procs[p].mv.MoveWritten?)
  }

  /** Request p has read invoice i in order to finalize it, and has not committed. */
  ghost predicate Finalizing(s: State, p: Pid, i: Pid) {
    InFlight(s, p) && s.procs[p].invoice == i && s.procs[p].target == OPEN
  }

  /** Request p has read invoice i in order to void it or to write it off, and has not committed. */
  ghost predicate Closing(s: State, p: Pid, i: Pid) {
    InFlight(s, p) && s.procs[p].invoice == i && s.procs[p].target != OPEN
  }

  ghost predicate OneFinalize(s: State, i: Pid) {
    forall p, q :: Finalizing(s, p, i) && Finalizing(s, q, i) ==> p == q
  }

  /** At every moment of the schedule at most one finalize of invoice i is in flight; or finalize is atomic. */
  ghost predicate FinalizesApart(cfg: Config, steps: seq<Step>, i: Pid) {
    cfg.atomicFinalize || forall k :: 0 <= k <= |steps| ==> OneFinalize(Run(cfg, EMPTY, steps[..k]), i)
  }

  lemma ApartBefore(cfg: Config, steps: seq<Step>, front: seq<Step>, i: Pid)
    requires FinalizesApart(cfg, steps, i) && front <= steps
    ensures FinalizesApart(cfg, front, i)
    ensures cfg.atomicFinalize || OneFinalize(Run(cfg, EMPTY, front), i)
  {
    if !cfg.atomicFinalize {
      forall k | 0 <= k <= |front| ensures OneFinalize(Run(cfg, EMPTY, front[..k]), i) {
        assert front[..k] == steps[..k];
      }
      assert steps[..|front|] == front;
    }
  }

  /******* Transitions in flight *******/

  /** A finalize in flight finds a draft, unless it will compare before it writes; any other transition does not. */
  ghost predicate MatchesDraft(cfg: Config, s: State, p: Pid)
    requires IsMove(s, p)
  {
    s.procs[p].invoice in s.invoices &&
    if s.procs[p].target == OPEN then cfg.atomicFinalize || s.invoices[s.procs[p].invoice].state == DRAFT
    else s.invoices[s.procs[p].invoice].state != DRAFT
  }

  ghost predicate DraftsMatch(cfg: Config, s: State, i: Pid) {
    forall p :: InFlight(s, p) && s.procs[p].invoice == i ==> MatchesDraft(cfg, s, p)
  }

  lemma DraftsKept(cfg: Config, s: State, step: Step, i: Pid)
    requires Inv(cfg, s) && DraftsMatch(cfg, s, i) && (cfg.atomicFinalize || OneFinalize(s, i))
    ensures DraftsMatch(cfg, Apply(cfg, s, step), i)
  {
    var s' := Apply(cfg, s, step);
    forall p | InFlight(s', p) && s'.procs[p].invoice == i ensures MatchesDraft(cfg, s', p) {
      RequestStep(cfg, s, step, p);
      if InFlight(s, p) {
        StillInFlight(cfg, s, step, p);
      } else {
        TakesFlight(cfg, s, step, p);
      }
    }
  }

  /** What a written transition overwrites: a draft if it is a finalize, and nothing but an issued invoice otherwise. */
  lemma Overwrites(cfg: Config, s: State, p: Pid, i: Pid)
    requires Inv(cfg, s) && DraftsMatch(cfg, s, i) && WroteMove(s, p, i)
    ensures i in s.invoices && (s.procs[p].target == OPEN <==> s.invoices[i].state == DRAFT)
    ensures s.procs[p].target in {OPEN, VOID, UNCOLLECTIBLE}
    ensures s.procs[p].target != OPEN && cfg.atomicClose ==> s.invoices[i].state == OPEN
  {
    assert MatchesDraft(cfg, s, p);
    MoveFacts(cfg, s, p);
  }

  lemma StillInFlight(cfg: Config, s: State, step: Step, p: Pid)
    requires Inv(cfg, s) && InFlight(s, p) && InFlight(Apply(cfg, s, step), p)
    requires DraftsMatch(cfg, s, s.procs[p].invoice) && (cfg.atomicFinalize || OneFinalize(s, s.procs[p].invoice))
    ensures MatchesDraft(cfg, Apply(cfg, s, step), p)
  {
    var i := s.procs[p].invoice;
    assert MatchesDraft(cfg, s, p);
    RequestStep(cfg, s, step, p);
    StateWriter(cfg, s, step, i);
    if step.CommitMove? && WroteMove(s, step.p, i) && Apply(cfg, s, step).invoices[i].state != s.invoices[i].state {
      Overwrites(cfg, s, step.p, i);
      if s.procs[step.p].target == OPEN && s.procs[p].target == OPEN && !cfg.atomicFinalize {
        assert Finalizing(s, p, i) && Finalizing(s, step.p, i);
        CommitLands(s, p);
      }
    }
  }

  lemma CommitLands(s: State, p: Pid)
    requires InFlight(s, p) && s.procs[p].mv.MoveWritten? && s.procs[p].invoice in s.invoices
    ensures !InFlight(DoCommitMove(s, p), p)
  {}

  /** A transition starts its flight by reading a state that it is allowed to leave. */
  lemma TakesFlight(cfg: Config, s: State, step: Step, p: Pid)
    requires Inv(cfg, s) && !InFlight(s, p) && InFlight(Apply(cfg, s, step), p)
    ensures Apply(cfg, s, step).invoices == s.invoices && Apply(cfg, s, step).attempts == s.attempts
    ensures ReadsAllowed(Apply(cfg, s, step), p) && MatchesDraft(cfg, Apply(cfg, s, step), p)
  {
    assert !IsPay(s, p) && !IsCreate(s, p) && Actor(step) == Some(p) by { RequestStep(cfg, s, step, p); }
    if step.ReadMove? {
      ReadTakesFlight(s, p);
    } else if step.StartMove? || step.WriteMove? || step.CommitMove? || step.Abort? {
      MoveStays(cfg, s, step);
    } else if step.StartPay? || step.StartCreate? || step.EnqueueCreate? || step.CommitCreate? {
      CreateStays(cfg, s, step);
    } else {
      CallStays(cfg, s, step);
    }
    TableClimbsOneRank(Apply(cfg, s, step).invoices[Apply(cfg, s, step).procs[p].invoice].state,
                       Apply(cfg, s, step).procs[p].target);
  }

  ghost predicate ReadsAllowed(s: State, p: Pid) {
    InFlight(s, p) && s.procs[p].invoice in s.invoices &&
    Allowed(s.invoices[s.procs[p].invoice].state, s.procs[p].target)
  }

  lemma ReadTakesFlight(s: State, p: Pid)
    requires !InFlight(s, p) && InFlight(DoReadMove(s, p), p)
    ensures DoReadMove(s, p).invoices == s.invoices && DoReadMove(s, p).attempts == s.attempts
    ensures ReadsAllowed(DoReadMove(s, p), p)
  {}

  lemma MoveStays(cfg: Config, s: State, step: Step)
    requires step.StartMove? || step.WriteMove? || step.CommitMove? || step.Abort?
    requires !InFlight(s, step.p)
    ensures !InFlight(Apply(cfg, s, step), step.p)
  {}

  lemma CreateStays(cfg: Config, s: State, step: Step)
    requires step.StartPay? || step.StartCreate? || step.EnqueueCreate? || step.CommitCreate?
    requires !InFlight(s, step.p) && !IsCreate(s, step.p)
    ensures !InFlight(Apply(cfg, s, step), step.p)
  {}

  /******* One live attempt *******/

  ghost predicate LiveOn(s: State, i: Pid, a: Pid) {
    a in s.attempts && s.attempts[a].invoice == i && s.attempts[a].status != FAILED
  }

  ghost predicate OneLive(s: State, i: Pid) {
    forall a, b :: LiveOn(s, i, a) && LiveOn(s, i, b) ==> a == b
  }

  /** At most one attempt of the invoice has not failed, and after a success the invoice is not open. */
  ghost predicate Single(cfg: Config, s: State, i: Pid) {
    && DraftsMatch(cfg, s, i)
    && OneLive(s, i)
    && (forall a :: PaidBy(s.attempts, i, a) ==> i in s.invoices && s.invoices[i].state != OPEN)
  }

  /** A live attempt is born by a reservation. */
  lemma NewLive(cfg: Config, s: State, step: Step, i: Pid, a: Pid)
    requires Inv(cfg, s) && LiveOn(Apply(cfg, s, step), i, a) && !LiveOn(s, i, a)
    ensures IsPay(s, a) && s.procs[a].at.Inserted? && s.procs[a].order.invoice == i
  {
    StepGrows(cfg, s, step);
    AttemptWriter(cfg, s, step, a);
    if OwnPending(TablesOf(s), a) { RowFacts(cfg, s, a); }
  }

  /** While a call has its row inserted, its invoice has no live attempt. */
  lemma NoneLive(cfg: Config, s: State, i: Pid, p: Pid, a: Pid)
    requires Inv(cfg, s) && Single(cfg, s, i) && IsPay(s, p) && s.procs[p].at.Inserted? && s.procs[p].order.invoice == i
    ensures !LiveOn(s, i, a)
  {
    PayFacts(cfg, s, p);
    if LiveOn(s, i, a) { assert PaidBy(s.attempts, i, a); }
  }

  lemma SameLive(cfg: Config, s: State, step: Step, i: Pid, a: Pid, b: Pid)
    requires Inv(cfg, s) && Single(cfg, s, i)
    requires LiveOn(Apply(cfg, s, step), i, a) && LiveOn(Apply(cfg, s, step), i, b)
    ensures a == b
  {
    if !LiveOn(s, i, a) {
      NewLive(cfg, s, step, i, a);
      NoneLive(cfg, s, i, a, b);
      NewLive(cfg, s, step, i, b);
      if a != b { OnlyGuard(cfg, s, a, b); }
    } else if !LiveOn(s, i, b) {
      NewLive(cfg, s, step, i, b);
      NoneLive(cfg, s, i, b, a);
    }
  }

  lemma LiveKept(cfg: Config, s: State, step: Step, i: Pid)
    requires Inv(cfg, s) && Single(cfg, s, i)
    ensures OneLive(Apply(cfg, s, step), i)
  {
    var s' := Apply(cfg, s, step);
    forall a, b | LiveOn(s', i, a) && LiveOn(s', i, b) ensures a == b { SameLive(cfg, s, step, i, a, b); }
  }

  lemma SuccessCloses(cfg: Config, s: State, step: Step, i: Pid, a: Pid)
    requires Inv(cfg, s) && Single(cfg, s, i) && PaidBy(Apply(cfg, s, step).attempts, i, a)
    ensures i in Apply(cfg, s, step).invoices && Apply(cfg, s, step).invoices[i].state != OPEN
  {
    if !PaidBy(s.attempts, i, a) {
      SuccessWriter(cfg, s, step, i, a);
    } else {
      RowFacts(cfg, s, a);
      StateWriter(cfg, s, step, i);
      if step.CommitMove? && WroteMove(s, step.p, i) { Overwrites(cfg, s, step.p, i); }
    }
  }

  lemma SingleKept(cfg: Config, s: State, step: Step, i: Pid)
    requires Inv(cfg, s) && Single(cfg, s, i) && (cfg.atomicFinalize || OneFinalize(s, i))
    ensures Single(cfg, Apply(cfg, s, step), i)
  {
    var s' := Apply(cfg, s, step);
    DraftsKept(cfg, s, step, i);
    LiveKept(cfg, s, step, i);
    forall a | PaidBy(s'.attempts, i, a) ensures i in s'.invoices && s'.invoices[i].state != OPEN {
      SuccessCloses(cfg, s, step, i, a);
    }
  }

  lemma {:induction false} RunsSingle(cfg: Config, steps: seq<Step>, i: Pid)
    requires FinalizesApart(cfg, steps, i)
    ensures Single(cfg, Run(cfg, EMPTY, steps), i)
    decreases |steps|
  {
    if steps != [] {
      var front, step := steps[..|steps| - 1], steps[|steps| - 1];
      ApartBefore(cfg, steps, front, i);
      RunsSingle(cfg, front, i);
      Reachable(cfg, front);
      SingleKept(cfg, Run(cfg, EMPTY, front), step, i);
    }
  }

  lemma SingleReached(cfg: Config, steps: seq<Step>, s: State, i: Pid)
    requires FinalizesApart(cfg, steps, i) && Reaches(cfg, EMPTY, steps, s)
    ensures Inv(cfg, s) && Single(cfg, s, i)
  {
    ReachedInv(cfg, steps, s);
    RunsSingle(cfg, steps, i);
    assert Run(cfg, EMPTY, steps) == s;
  }

  /******* The same run *******/

  function Atomically(cfg: Config): Config {
    cfg.(atomicFinalize := true)
  }

  /** It makes no difference whether finalize compares, as long as every finalize in flight finds a draft. */
  lemma SameStep(cfg: Config, s: State, step: Step)
    requires Inv(Atomically(cfg), s) && forall i :: DraftsMatch(cfg, s, i)
    ensures Apply(cfg, s, step) == Apply(Atomically(cfg), s, step)
  {
    if step.WriteMove? && IsMove(s, step.p) && s.procs[step.p].mv.MoveRead? {
      MoveFacts(Atomically(cfg), s, step.p);
      assert DraftsMatch(cfg, s, s.procs[step.p].invoice) && MatchesDraft(cfg, s, step.p);
    }
  }

  /** On such a schedule the service runs as if finalize were atomic. */
  lemma {:induction false} SameRun(cfg: Config, steps: seq<Step>)
    requires forall i :: FinalizesApart(cfg, steps, i)
    ensures Run(cfg, EMPTY, steps) == Run(Atomically(cfg), EMPTY, steps)
    decreases |steps|
  {
    if steps != [] {
      var front, step := steps[..|steps| - 1], steps[|steps| - 1];
      forall i ensures FinalizesApart(cfg, front, i) && DraftsMatch(cfg, Run(cfg, EMPTY, front), i) {
        ApartBefore(cfg, steps, front, i);
        RunsSingle(cfg, front, i);
      }
      SameRun(cfg, front);
      Reachable(Atomically(cfg), front);
      SameStep(cfg, Run(cfg, EMPTY, front), step);
    }
  }
}
