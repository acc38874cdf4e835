/** What was true when a transition request got its answer. */
module TransitionAnswers {
  import opened InvoiceStates
  import opened PaymentProtocol
  import opened ProtocolInvariant
  import opened ProtocolFrames

  /** What the answer to a transition says about the state in which it was given. */
  ghost predicate MoveReason(s: State, m: Proc, result: MoveResult)
    requires m.Move?
  {
    var own := OwnedBy(TablesOf(s), m.invoice, m.business);
    match result
    case MoveNotFound => !own
    case MoveRefused => own && !AssertTransitionAllowed(s.invoices[m.invoice].state, m.target).Permitted?
    case MoveApplied => own
    case MoveDied => true
  }

  ghost predicate MoveRunning(s: State, p: Pid) {
    IsMove(s, p) && !s.procs[p].mv.MoveDone?
  }

  ghost predicate MoveAnswered(s: State, p: Pid) {
    IsMove(s, p) && s.procs[p].mv.MoveDone?
  }

  lemma ReadReason(s: State, p: Pid)
    requires MoveRunning(s, p) && MoveAnswered(DoReadMove(s, p), p)
    ensures MoveReason(s, s.procs[p], DoReadMove(s, p).procs[p].mv.moved)
  {
    var m := s.procs[p];
    if m.invoice in s.invoices { TableClimbsOneRank(s.invoices[m.invoice].state, m.target); }
  }

  lemma CommitReason(cfg: Config, s: State, p: Pid)
    requires Inv(cfg, s) && MoveRunning(s, p) && MoveAnswered(DoCommitMove(s, p), p)
    ensures MoveReason(s, s.procs[p], DoCommitMove(s, p).procs[p].mv.moved)
    ensures s.procs[p].invoice in DoCommitMove(s, p).invoices
    ensures DoCommitMove(s, p).invoices[s.procs[p].invoice].state == s.procs[p].target
  {
    MoveFacts(cfg, s, p);
  }

  lemma WriteGoesOn(cfg: Config, s: State, p: Pid)
    requires MoveRunning(s, p)
    ensures MoveRunning(DoWriteMove(cfg, s, p), p)
  {}

  lemma AbortAnswers(s: State, p: Pid)
    requires MoveRunning(s, p)
    ensures MoveAnswered(DoAbort(s, p), p) && DoAbort(s, p).procs[p].mv.moved == MoveDied
  {}

  lemma StartsPass(cfg: Config, s: State, step: Step)
    requires step.StartPay? || step.StartMove? || step.StartCreate? || step.EnqueueCreate? || step.CommitCreate?
    requires IsMove(s, step.p)
    ensures Apply(cfg, s, step) == s
  {}

  /** Where the answer comes from: the read, the commit, or an abort. */
  ghost predicate MoveAnswerOf(s: State, step: Step, s': State, p: Pid)
    requires IsMove(s, p)
  {
    && MoveAnswered(s', p) && MoveReason(s, s.procs[p], s'.procs[p].mv.moved)
    && (s'.procs[p].mv.moved.MoveApplied? ==>
          && step == CommitMove(p) && s.procs[p].invoice in s'.invoices
          && s'.invoices[s.procs[p].invoice].state == s.procs[p].target)
  }

  lemma MoveAnswerStep(cfg: Config, s: State, step: Step, p: Pid)
    requires Inv(cfg, s) && MoveRunning(s, p) && MoveAnswered(Apply(cfg, s, step), p)
    ensures MoveAnswerOf(s, step, Apply(cfg, s, step), p)
  {
    RequestStep(cfg, s, step, p);
    match step
    case ReadMove(_) => ReadReason(s, p); ReadAppliesNothing(s, p);
    case WriteMove(_) => WriteGoesOn(cfg, s, p);
    case CommitMove(_) => CommitReason(cfg, s, p);
    case Abort(_) => AbortAnswers(s, p);
    case StartPay(_, _) | StartMove(_, _, _, _) | StartCreate(_, _, _, _) | EnqueueCreate(_) | CommitCreate(_) =>
      StartsPass(cfg, s, step);
    case _ => CallStays(cfg, s, step);
  }

  lemma ReadAppliesNothing(s: State, p: Pid)
    requires MoveRunning(s, p) && MoveAnswered(DoReadMove(s, p), p)
    ensures !DoReadMove(s, p).procs[p].mv.moved.MoveApplied?
  {}

  /** Step k gives request p its answer, and the answer is right about the state just before it. */
  ghost predicate MoveAnsweredAt(cfg: Config, steps: seq<Step>, k: nat, p: Pid, m: Proc)
    requires m.Move? && m.mv.MoveDone?
  {
    && k < |steps|
    && var s, s' := Run(cfg, EMPTY, steps[..k]), Run(cfg, EMPTY, steps[..k + 1]);
       && MoveRunning(s, p) && SameRequest(s.procs[p], m) && MoveAnswerOf(s, steps[k], s', p)
       && s'.procs[p].mv == m.mv
  }

  lemma MoveReasonExtends(cfg: Config, front: seq<Step>, step: Step, p: Pid, m: Proc)
    requires m.Move? && m.mv.MoveDone? && exists k: nat :: MoveAnsweredAt(cfg, front, k, p, m)
    ensures exists k: nat :: MoveAnsweredAt(cfg, front + [step], k, p, m)
  {
    var k: nat :| MoveAnsweredAt(cfg, front, k, p, m);
    assert (front + [step])[..k] == front[..k] && (front + [step])[..k + 1] == front[..k + 1];
    assert MoveAnsweredAt(cfg, front + [step], k, p, m);
  }

  /** Every transition was answered truly: not found means that the business had no such
      invoice, refused that its state did not permit the target, and applied that it is the
      business's own, and in the target state at that moment. */
  lemma {:induction false} TransitionsHaveReasons(cfg: Config, steps: seq<Step>, p: Pid)
    requires MoveAnswered(Run(cfg, EMPTY, steps), p)
    ensures exists k: nat :: MoveAnsweredAt(cfg, steps, k, p, Run(cfg, EMPTY, steps).procs[p])
    decreases |steps|
  {
    var front, step := steps[..|steps| - 1], steps[|steps| - 1];
    var s, s' := Run(cfg, EMPTY, front), Run(cfg, EMPTY, steps);
    assert steps == front + [step] && steps[..|front| + 1] == steps;
    Reachable(cfg, front);
    RequestStep(cfg, s, step, p);
    if MoveAnswered(s, p) {
      TransitionsHaveReasons(cfg, front, p);
      MoveReasonExtends(cfg, front, step, p, s.procs[p]);
    } else if MoveRunning(s, p) {
      MoveAnswerStep(cfg, s, step, p);
      assert MoveAnsweredAt(cfg, steps, |front|, p, s'.procs[p]);
    } else {
      NewMoveRuns(cfg, s, step, p);
    }
  }

  lemma NewMoveRuns(cfg: Config, s: State, step: Step, p: Pid)
    requires Inv(cfg, s) && p !in s.procs && IsMove(Apply(cfg, s, step), p)
    ensures MoveRunning(Apply(cfg, s, step), p)
  {
    RequestStep(cfg, s, step, p);
    if step.StartPay? || step.StartMove? || step.StartCreate? {
    } else if step.ReadMove? || step.WriteMove? || step.CommitMove? || step.Abort? {
    } else if step.EnqueueCreate? || step.CommitCreate? {
    } else {
      CallStays(cfg, s, step);
    }
  }
}
