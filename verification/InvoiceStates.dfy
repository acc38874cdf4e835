/** The invoice state machine: a constant transition table and the check every
    service runs before it writes a new state. */
module InvoiceStates {

  datatype InvoiceState = DRAFT | OPEN | PAID | VOID | UNCOLLECTIBLE

  const TERMINAL_STATES: set<InvoiceState> := {PAID, VOID, UNCOLLECTIBLE}

  const ALLOWED_TRANSITIONS: map<InvoiceState, set<InvoiceState>> :=
    map[DRAFT := {OPEN},
        OPEN := {PAID, VOID, UNCOLLECTIBLE},
        PAID := {},
        VOID := {},
        UNCOLLECTIBLE := {}]

  function Successors(current: InvoiceState): set<InvoiceState> {
    if current in ALLOWED_TRANSITIONS then ALLOWED_TRANSITIONS[current] else {}
  }

  /** What the check reports: nothing, or the reason carried by the exception. */
  datatype Verdict =
    | Permitted
    | FromTerminal(current: InvoiceState)
    | NotAllowed(current: InvoiceState, target: InvoiceState)

  function AssertTransitionAllowed(current: InvoiceState, target: InvoiceState): Verdict {
    if current in TERMINAL_STATES then FromTerminal(current)
    else if target !in Successors(current) then NotAllowed(current, target)
    else Permitted
  }

  /** How far along its life an invoice is. */
  function Rank(state: InvoiceState): nat {
    match state
    case DRAFT => 0
    case OPEN => 1
    case PAID | VOID | UNCOLLECTIBLE => 2
  }

  predicate Allowed(current: InvoiceState, target: InvoiceState) {
    Rank(target) == Rank(current) + 1
  }

  /** The table permits exactly four moves; these are the steps that move one rank up, so a
      terminal state has no successor and DRAFT cannot skip OPEN. */
  lemma TableClimbsOneRank(current: InvoiceState, target: InvoiceState)
    ensures AssertTransitionAllowed(current, target).Permitted? <==> Allowed(current, target)
    ensures AssertTransitionAllowed(current, target).Permitted? <==>
              (current == DRAFT && target == OPEN) || (current == OPEN && target in {PAID, VOID, UNCOLLECTIBLE})
    ensures AssertTransitionAllowed(current, target).FromTerminal? <==> Rank(current) == 2
    ensures current in {PAID, VOID, UNCOLLECTIBLE} <==> Rank(current) == 2
  {
    match current {
      case DRAFT => assert Successors(DRAFT) == {OPEN};
      case OPEN => assert Successors(OPEN) == TERMINAL_STATES;
      case PAID =>
      case VOID =>
      case UNCOLLECTIBLE =>
    }
  }

  ghost predicate IsPath(path: seq<InvoiceState>) {
    forall k :: 0 <= k < |path| - 1 ==> AssertTransitionAllowed(path[k], path[k + 1]).Permitted?
  }

  /** Every chain of permitted transitions is short: it climbs one rank per step. */
  lemma {:induction false} PathsClimb(path: seq<InvoiceState>)
    requires path != [] && IsPath(path)
    ensures Rank(path[|path| - 1]) == Rank(path[0]) + |path| - 1
    ensures |path| <= 3
  {
    if |path| > 1 {
      var front := path[..|path| - 1];
      forall k | 0 <= k < |front| - 1 ensures AssertTransitionAllowed(front[k], front[k + 1]).Permitted? {
        assert front[k] == path[k] && front[k + 1] == path[k + 1];
      }
      PathsClimb(front);
      TableClimbsOneRank(path[|path| - 2], path[|path| - 1]);
    }
  }
}
