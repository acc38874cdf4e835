/** The life of an invoice under all endpoints and payment calls together. */
module InvoiceLifecycle {
  import opened InvoiceStates
  import opened PaymentProtocol
  import opened ProtocolInvariant
  import opened FinalizeSchedules
  import opened CloseSchedules

  /** One step leaves the committed state of an invoice or advances it along the table. */
  lemma StateStep(cfg: Config, s: State, step: Step, i: Pid)
    requires Inv(cfg, s) && Single(cfg, s, i) && StillFits(cfg, s, i) && i in s.invoices
    ensures i in Apply(cfg, s, step).invoices
    ensures var before, after := s.invoices[i].state, Apply(cfg, s, step).invoices[i].state;
            after == before || AssertTransitionAllowed(before, after).Permitted?
  {
    StepGrows(cfg, s, step);
    TableClimbsOneRank(s.invoices[i].state, Apply(cfg, s, step).invoices[i].state);
    if !HasState(Apply(cfg, s, step), i, s.invoices[i].state) {
      ChangedBy(cfg, s, step, i);
      if step.CommitOutcome? {
        PayerPaying(cfg, s, step.p, i);
        PayFacts(cfg, s, step.p);
      }
    }
  }

  /** An invoice is born as a draft. */
  lemma BornDraft(cfg: Config, s: State, step: Step, i: Pid)
    requires Inv(cfg, s) && i !in s.invoices && i in Apply(cfg, s, step).invoices
    ensures Apply(cfg, s, step).invoices[i].state == DRAFT
  {
    if !WritesTables(step) {
      StepGrows(cfg, s, step);
    } else {
      match step
      case CommitCreate(_) =>
      case _ =>
    }
  }

  function Append(history: seq<InvoiceState>, state: InvoiceState): seq<InvoiceState> {
    if history != [] && history[|history| - 1] == state then history else history + [state]
  }

  /** The committed states of invoice i over a run, each change once. */
  ghost function History(cfg: Config, steps: seq<Step>, i: Pid): seq<InvoiceState> {
    if steps == [] then []
    else
      var before, s := History(cfg, steps[..|steps| - 1], i), Run(cfg, EMPTY, steps);
      if i !in s.invoices then before else Append(before, s.invoices[i].state)
  }

  /** A path of the table from DRAFT that ends in the invoice's state; empty while there is no invoice. */
  ghost predicate IsLife(history: seq<InvoiceState>, s: State, i: Pid) {
    && IsPath(history)
    && (i in s.invoices <==> history != [])
    && (history != [] ==> history[0] == DRAFT && history[|history| - 1] == s.invoices[i].state)
  }

  lemma LifeGoesOn(history: seq<InvoiceState>, s: State, s': State, i: Pid)
    requires IsLife(history, s, i)
    requires i in s.invoices ==> i in s'.invoices
    requires i in s.invoices && s'.invoices[i].state != s.invoices[i].state ==>
               AssertTransitionAllowed(s.invoices[i].state, s'.invoices[i].state).Permitted?
    requires i !in s.invoices && i in s'.invoices ==> s'.invoices[i].state == DRAFT
    ensures IsLife(if i !in s'.invoices then history else Append(history, s'.invoices[i].state), s', i)
  {}

  lemma LifeStep(cfg: Config, s: State, step: Step, i: Pid, history: seq<InvoiceState>)
    requires Inv(cfg, s) && Single(cfg, s, i) && StillFits(cfg, s, i) && IsLife(history, s, i)
    ensures var s' := Apply(cfg, s, step);
            IsLife(if i !in s'.invoices then history else Append(history, s'.invoices[i].state), s', i)
  {
    StepGrows(cfg, s, step);
    if i in s.invoices {
      StateStep(cfg, s, step, i);
    } else if i in Apply(cfg, s, step).invoices {
      BornDraft(cfg, s, step, i);
    }
    LifeGoesOn(history, s, Apply(cfg, s, step), i);
  }

  lemma {:induction false} HistoryIsPath(cfg: Config, steps: seq<Step>, i: Pid)
    requires WritersApart(cfg, steps, i)
    ensures IsLife(History(cfg, steps, i), Run(cfg, EMPTY, steps), i)
    decreases |steps|
  {
    if steps != [] {
      var front := steps[..|steps| - 1];
      WritersBefore(cfg, steps, front, i);
      HistoryIsPath(cfg, front, i);
      Reachable(cfg, front);
      RunsFit(cfg, front, i);
      LifeStep(cfg, Run(cfg, EMPTY, front), steps[|steps| - 1], i, History(cfg, front, i));
    }
  }

  /** If no two writers of its state overlap, every run takes an invoice along DRAFT, OPEN and
      one terminal state: the history is a path of the table from DRAFT of at most three entries. */
  lemma InvoiceLife(cfg: Config, steps: seq<Step>, s: State, i: Pid)
    requires WritersApart(cfg, steps, i) && Reaches(cfg, EMPTY, steps, s)
    ensures IsLife(History(cfg, steps, i), s, i) && |History(cfg, steps, i)| <= 3
  {
    HistoryIsPath(cfg, steps, i);
    assert Run(cfg, EMPTY, steps) == s;
    if History(cfg, steps, i) != [] { PathsClimb(History(cfg, steps, i)); }
  }

  ghost predicate IsTerminal(s: State, i: Pid) {
    i in s.invoices && s.invoices[i].state in TERMINAL_STATES
  }

  /** No endpoint and no payment call moves an invoice out of a terminal state. */
  lemma {:induction false} TerminalStatesStay(cfg: Config, first: seq<Step>, more: seq<Step>, i: Pid)
    requires WritersApart(cfg, first + more, i) && IsTerminal(Run(cfg, EMPTY, first), i)
    ensures var s, s' := Run(cfg, EMPTY, first), Run(cfg, EMPTY, first + more);
            i in s'.invoices && s'.invoices[i].state == s.invoices[i].state
    decreases |more|
  {
    if more == [] {
      assert first + more == first;
    } else {
      var front, step := more[..|more| - 1], more[|more| - 1];
      assert (first + more)[..|first + more| - 1] == first + front;
      WritersBefore(cfg, first + more, first + front, i);
      TerminalStatesStay(cfg, first, front, i);
      Reachable(cfg, first + front);
      RunsFit(cfg, first + front, i);
      StateStep(cfg, Run(cfg, EMPTY, first + front), step, i);
    }
  }
}
