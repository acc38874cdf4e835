/** What invoices say was paid, what attempts say was paid, and what the provider took. */
module MoneyConservation {
  import opened InvoiceStates
  import opened PaymentProtocol
  import opened ProtocolInvariant
  import opened FinalizeSchedules
  import opened CloseSchedules
  import opened PaymentSafety
  import opened Sums

  /** A total is a sum over the lines: it splits anywhere, so the order of the lines does not matter. */
  lemma LineTotalSplits(first: seq<LineItem>, second: seq<LineItem>)
    ensures LineTotal(first + second) == LineTotal(first) + LineTotal(second) == LineTotal(second + first)
  {
    LineTotalAppends(first, second);
    LineTotalAppends(second, first);
  }

  lemma {:induction false} LineTotalAppends(first: seq<LineItem>, second: seq<LineItem>)
    ensures LineTotal(first + second) == LineTotal(first) + LineTotal(second)
    decreases |second|
  {
    if second == [] {
      assert first + second == first;
    } else {
      assert (first + second)[..|first + second| - 1] == first + second[..|second| - 1];
      LineTotalAppends(first, second[..|second| - 1]);
    }
  }

  /** What the lines come to: quantity times unit amount, line after line. */
  ghost function ProductSum(items: seq<LineItem>): int {
    if items == [] then 0 else items[0].quantity * items[0].unitAmountCents + ProductSum(items[1..])
  }

  /** The total is the sum of quantity times unit amount over the lines. */
  lemma {:induction false} TotalIsProductSum(items: seq<LineItem>)
    ensures LineTotal(items) == ProductSum(items)
  {
    if items != [] {
      assert items == [items[0]] + items[1..];
      LineTotalAppends([items[0]], items[1..]);
      OneLine(items[0]);
      TotalIsProductSum(items[1..]);
    }
  }

  /** The total of one line is quantity times unit amount. */
  lemma OneLine(item: LineItem)
    ensures LineTotal([item]) == item.quantity * item.unitAmountCents
  {
    assert [item][..0] == [];
    assert LineTotal([]) == 0;
  }

  /** What the columns hold: a positive 32-bit quantity, no negative amount, and products and
      a total of 64 bits with sign. */
  lemma StorableIff(items: seq<LineItem>)
    ensures Storable(items) <==>
            && (forall k :: 0 <= k < |items| ==>
                  && 1 <= items[k].quantity <= 2_147_483_647 && 0 <= items[k].unitAmountCents
                  && items[k].quantity * items[k].unitAmountCents <= 9_223_372_036_854_775_807)
            && ProductSum(items) <= 9_223_372_036_854_775_807
  {
    TotalIsProductSum(items);
    forall k | 0 <= k < |items| && 1 <= items[k].quantity && 0 <= items[k].unitAmountCents
      ensures items[k].unitAmountCents <= items[k].quantity * items[k].unitAmountCents
    {
      AtLeastOnce(items[k].quantity, items[k].unitAmountCents);
    }
    if forall k :: 0 <= k < |items| ==> 1 <= items[k].quantity && 0 <= items[k].unitAmountCents { NotNegative(items); }
  }

  lemma AtLeastOnce(quantity: int, amount: int)
    requires 1 <= quantity && 0 <= amount
    ensures 0 <= amount <= quantity * amount
  {
    assert quantity * amount == (quantity - 1) * amount + amount;
  }

  lemma {:induction false} NotNegative(items: seq<LineItem>)
    requires forall k :: 0 <= k < |items| ==> 1 <= items[k].quantity && 0 <= items[k].unitAmountCents
    ensures ProductSum(items) >= 0
  {
    if items != [] {
      AtLeastOnce(items[0].quantity, items[0].unitAmountCents);
      NotNegative(items[1..]);
    }
  }

  ghost predicate OwnInvoice(s: State, b: BusinessId, i: Pid) {
    i in s.invoices && s.invoices[i].business == b
  }

  /** The totals of the PAID invoices of a business. */
  ghost function PaidTotals(s: State, b: BusinessId): map<Pid, int> {
    map i | i in s.invoices && OwnInvoice(s, b, i) && s.invoices[i].state == PAID :: s.invoices[i].totalCents
  }

  /** The amounts of the succeeded attempts on its invoices. */
  ghost function SucceededAmounts(s: State, b: BusinessId): map<Pid, int> {
    map a | a in s.attempts && OwnInvoice(s, b, s.attempts[a].invoice) && s.attempts[a].status == SUCCEEDED ::
      s.attempts[a].amountCents
  }

  /** The amounts the provider charged for its invoices, call by call. */
  ghost function ChargedAmounts(s: State, b: BusinessId): map<Pid, int> {
    map c | c in s.psp && s.psp[c].stage == Charged && IsPay(s, c) && OwnInvoice(s, b, s.procs[c].order.invoice) ::
      s.psp[c].amountCents
  }

  /** The totals of all its invoices that ask for money. */
  ghost function InvoicedTotals(s: State, b: BusinessId): map<Pid, int> {
    map i | i in s.invoices && OwnInvoice(s, b, i) && s.invoices[i].totalCents > 0 :: s.invoices[i].totalCents
  }

  /** The attempt that paid an invoice. */
  ghost function Payer(s: State, i: Pid): Pid {
    if exists a: Pid :: PaidBy(s.attempts, i, a) then var a: Pid :| PaidBy(s.attempts, i, a); a else i
  }

  ghost function Payers(s: State, b: BusinessId): map<Pid, Pid> {
    map i | i in PaidTotals(s, b) :: Payer(s, i)
  }

  ghost function InvoicesOfCalls(s: State, b: BusinessId): map<Pid, Pid> {
    map c | c in ChargedAmounts(s, b) && IsPay(s, c) :: s.procs[c].order.invoice
  }

  ghost function Same(m: map<Pid, int>): map<Pid, Pid> {
    map k | k in m :: k
  }

  lemma PayerFacts(cfg: Config, s: State, i: Pid)
    requires Inv(cfg, s) && i in s.invoices && s.invoices[i].state == PAID
    ensures PaidBy(s.attempts, i, Payer(s, i))
    ensures s.attempts[Payer(s, i)].amountCents == s.invoices[i].totalCents == LineTotal(s.invoices[i].items)
    ensures Payer(s, i) in Charges(s, i) && s.psp[Payer(s, i)].amountCents == s.invoices[i].totalCents
  {
    assert Holds(cfg, s, InvoicesClause);
    RowFacts(cfg, s, Payer(s, i));
    ChargeFacts(cfg, s, Payer(s, i));
  }

  lemma OnlyPayer(cfg: Config, s: State, i: Pid)
    requires Inv(cfg, s) && Single(cfg, s, i) && i in s.invoices && s.invoices[i].state == PAID
    ensures Charges(s, i) == {Payer(s, i)} && forall a :: PaidBy(s.attempts, i, a) ==> a == Payer(s, i)
  {
    var a := Payer(s, i);
    PayerFacts(cfg, s, i);
    assert LiveOn(s, i, a);
    forall b | PaidBy(s.attempts, i, b) ensures b == a { assert LiveOn(s, i, b); }
    forall c | c in Charges(s, i) ensures c == a { ChargeIsRecorded(cfg, s, i, c); }
  }

  /** If no two finalizes of it overlap, a PAID invoice was paid by exactly one succeeded
      attempt, and that attempt, the one charge and the invoice all carry the sum of
      quantity * unit amount over its lines. */
  lemma PaidExactlyOnce(cfg: Config, steps: seq<Step>, s: State, i: Pid)
    requires FinalizesApart(cfg, steps, i) && Reaches(cfg, EMPTY, steps, s)
    requires i in s.invoices && s.invoices[i].state == PAID
    ensures exists a: Pid :: && PaidBy(s.attempts, i, a) && (forall b :: PaidBy(s.attempts, i, b) ==> b == a)
                        && Charges(s, i) == {a}
                        && s.attempts[a].amountCents == s.psp[a].amountCents == ProductSum(s.invoices[i].items)
  {
    TotalIsProductSum(s.invoices[i].items);
    SingleReached(cfg, steps, s, i);
    PayerFacts(cfg, s, i);
    OnlyPayer(cfg, s, i);
    assert PaidBy(s.attempts, i, Payer(s, i));
  }

  lemma PaidEmbeds(cfg: Config, s: State, b: BusinessId)
    requires Inv(cfg, s)
    ensures Embeds(PaidTotals(s, b), SucceededAmounts(s, b), Payers(s, b))
    ensures forall a :: a in SucceededAmounts(s, b) ==> 0 < SucceededAmounts(s, b)[a]
  {
    forall i | i in PaidTotals(s, b)
      ensures Payers(s, b)[i] in SucceededAmounts(s, b) &&
              SucceededAmounts(s, b)[Payers(s, b)[i]] == PaidTotals(s, b)[i]
    {
      PayerFacts(cfg, s, i);
    }
    forall i, j | i in PaidTotals(s, b) && j in PaidTotals(s, b) && Payers(s, b)[i] == Payers(s, b)[j] ensures i == j {
      PayerFacts(cfg, s, i);
      PayerFacts(cfg, s, j);
    }
    forall a | a in SucceededAmounts(s, b) ensures 0 < SucceededAmounts(s, b)[a] {
      RowFacts(cfg, s, a);
    }
  }

  lemma SucceededEmbeds(cfg: Config, s: State, b: BusinessId)
    requires Inv(cfg, s)
    ensures Embeds(SucceededAmounts(s, b), ChargedAmounts(s, b), Same(SucceededAmounts(s, b)))
    ensures forall c :: c in ChargedAmounts(s, b) ==> 0 < ChargedAmounts(s, b)[c]
  {
    forall a | a in SucceededAmounts(s, b)
      ensures a in ChargedAmounts(s, b) && ChargedAmounts(s, b)[a] == SucceededAmounts(s, b)[a]
    {
      RowFacts(cfg, s, a);
      ChargeFacts(cfg, s, a);
    }
    forall c | c in ChargedAmounts(s, b) ensures 0 < ChargedAmounts(s, b)[c] {
      ChargeFacts(cfg, s, c);
      RowFacts(cfg, s, c);
    }
  }

  lemma ChargedEmbeds(cfg: Config, s: State, b: BusinessId)
    requires Inv(cfg, s) && forall i :: OwnInvoice(s, b, i) ==> Single(cfg, s, i)
    ensures Embeds(ChargedAmounts(s, b), InvoicedTotals(s, b), InvoicesOfCalls(s, b))
  {
    forall c | c in ChargedAmounts(s, b)
      ensures InvoicesOfCalls(s, b)[c] in InvoicedTotals(s, b)
      ensures InvoicedTotals(s, b)[InvoicesOfCalls(s, b)[c]] == ChargedAmounts(s, b)[c]
    {
      ChargeIsRecorded(cfg, s, s.procs[c].order.invoice, c);
      RowFacts(cfg, s, c);
    }
    forall c, d | c in ChargedAmounts(s, b) && d in ChargedAmounts(s, b) &&
                  InvoicesOfCalls(s, b)[c] == InvoicesOfCalls(s, b)[d]
      ensures c == d
    {
      ChargeIsRecorded(cfg, s, s.procs[c].order.invoice, c);
      ChargeIsRecorded(cfg, s, s.procs[d].order.invoice, d);
      assert Single(cfg, s, s.procs[c].order.invoice);
    }
  }

  /** Per business, in every reachable state, paid <= succeeded <= charged; and
      charged <= invoiced if no two finalizes of any of its invoices overlapped. */
  lemma MoneyIsConserved(cfg: Config, steps: seq<Step>, s: State, b: BusinessId)
    requires Reaches(cfg, EMPTY, steps, s)
    ensures Sum(PaidTotals(s, b)) <= Sum(SucceededAmounts(s, b)) <= Sum(ChargedAmounts(s, b))
    ensures (forall i :: OwnInvoice(s, b, i) ==> FinalizesApart(cfg, steps, i)) ==>
              Sum(ChargedAmounts(s, b)) <= Sum(InvoicedTotals(s, b))
  {
    ReachedInv(cfg, steps, s);
    PaidEmbeds(cfg, s, b);
    SumEmbedded(PaidTotals(s, b), SucceededAmounts(s, b), Payers(s, b));
    SucceededEmbeds(cfg, s, b);
    SumEmbedded(SucceededAmounts(s, b), ChargedAmounts(s, b), Same(SucceededAmounts(s, b)));
    if forall i :: OwnInvoice(s, b, i) ==> FinalizesApart(cfg, steps, i) {
      forall i | OwnInvoice(s, b, i) ensures Single(cfg, s, i) { SingleReached(cfg, steps, s, i); }
      ChargedEmbeds(cfg, s, b);
      SumEmbedded(ChargedAmounts(s, b), InvoicedTotals(s, b), InvoicesOfCalls(s, b));
    }
  }

  /** The attempt succeeded, its invoice is still PAID, and no other attempt of it succeeded. */
  ghost predicate AlonePays(s: State, b: BusinessId, a: Pid) {
    && a in SucceededAmounts(s, b)
    && s.invoices[s.attempts[a].invoice].state == PAID
    && forall c :: c in SucceededAmounts(s, b) && s.attempts[c].invoice == s.attempts[a].invoice ==> c == a
  }

  /** Paid equals succeeded exactly when every succeeded attempt alone pays an invoice that is still PAID. */
  lemma PaidEqualsSucceededIff(cfg: Config, steps: seq<Step>, s: State, b: BusinessId)
    requires Reaches(cfg, EMPTY, steps, s)
    ensures Sum(PaidTotals(s, b)) == Sum(SucceededAmounts(s, b)) <==>
              forall a :: a in SucceededAmounts(s, b) ==> AlonePays(s, b, a)
  {
    ReachedInv(cfg, steps, s);
    PaidEmbeds(cfg, s, b);
    SumEmbedded(PaidTotals(s, b), SucceededAmounts(s, b), Payers(s, b));
    if forall a :: a in SucceededAmounts(s, b) ==> AlonePays(s, b, a) {
      forall a | a in SucceededAmounts(s, b)
        ensures exists i :: i in PaidTotals(s, b) && i in Payers(s, b) && Payers(s, b)[i] == a
      {
        PayerPays(cfg, s, b, a);
      }
    } else {
      var a :| a in SucceededAmounts(s, b) && !AlonePays(s, b, a);
      SomeoneLeftOver(cfg, s, b, a);
    }
  }

  lemma PayerPays(cfg: Config, s: State, b: BusinessId, a: Pid)
    requires Inv(cfg, s) && AlonePays(s, b, a)
    ensures s.attempts[a].invoice in PaidTotals(s, b) && Payers(s, b)[s.attempts[a].invoice] == a
  {
    var i := s.attempts[a].invoice;
    PayerFacts(cfg, s, i);
    assert Payer(s, i) in SucceededAmounts(s, b);
  }

  lemma SomeoneLeftOver(cfg: Config, s: State, b: BusinessId, a: Pid)
    requires Inv(cfg, s) && a in SucceededAmounts(s, b) && !AlonePays(s, b, a)
    ensures !Covers(PaidTotals(s, b), SucceededAmounts(s, b), Payers(s, b))
  {
    var i := s.attempts[a].invoice;
    forall j | j in PaidTotals(s, b) ensures Payers(s, b)[j] in s.attempts && s.attempts[Payers(s, b)[j]].invoice == j {
      PayerFacts(cfg, s, j);
    }
    if s.invoices[i].state == PAID {
      var c :| c in SucceededAmounts(s, b) && s.attempts[c].invoice == i && c != a;
      var left := if Payer(s, i) == a then c else a;
      assert forall j :: j in PaidTotals(s, b) ==> Payers(s, b)[j] != left;
      assert left in SucceededAmounts(s, b);
    } else {
      assert forall j :: j in PaidTotals(s, b) ==> Payers(s, b)[j] != a;
    }
  }

  /** If no two finalizes of an invoice overlap and no payment of it overlaps a void or an
      uncollectible (or these write the row in the state they read), it is PAID exactly if an
      attempt on it has succeeded. */
  lemma PaidIffSucceeded(cfg: Config, steps: seq<Step>, s: State, i: Pid)
    requires PaymentsApart(cfg, steps, i) && Reaches(cfg, EMPTY, steps, s)
    ensures HasState(s, i, PAID) <==> exists a: Pid :: PaidBy(s.attempts, i, a)
  {
    SingleReached(cfg, steps, s, i);
    RunsShownPaid(cfg, steps, i);
    assert Run(cfg, EMPTY, steps) == s;
    if HasState(s, i, PAID) { PayerFacts(cfg, s, i); }
  }

  /** Then the books balance: paid equals succeeded, if all invoices of the business are like that. */
  lemma PaymentsApartBalance(cfg: Config, steps: seq<Step>, s: State, b: BusinessId)
    requires Reaches(cfg, EMPTY, steps, s)
    requires forall i :: OwnInvoice(s, b, i) ==> PaymentsApart(cfg, steps, i)
    ensures Sum(PaidTotals(s, b)) == Sum(SucceededAmounts(s, b))
  {
    assert Run(cfg, EMPTY, steps) == s;
    forall a | a in SucceededAmounts(s, b) ensures AlonePays(s, b, a) {
      var i := s.attempts[a].invoice;
      assert OwnInvoice(s, b, i) && PaidBy(s.attempts, i, a);
      SingleReached(cfg, steps, s, i);
      RunsShownPaid(cfg, steps, i);
      assert LiveOn(s, i, a);
      forall c | c in SucceededAmounts(s, b) && s.attempts[c].invoice == i ensures c == a { assert LiveOn(s, i, c); }
    }
    PaidEqualsSucceededIff(cfg, steps, s, b);
  }
}
