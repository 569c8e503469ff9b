/** Refunds, chargebacks and won disputes: capped entries, and the balance they keep per invoice. */
module Reversals {
  import opened RecoveryEvents
  import opened Sums
  import opened Wrappers

  datatype ReversalPayload = ReversalPayload(invoiceId: string, amount: real, currency: string)

  function Min(a: real, b: real): real { if a < b then a else b }

  function Entry(kind: Kind, p: ReversalPayload, amount: real, merchant: string, at: int, processor: string): Event {
    Event(merchant, kind, Some(at), p.invoiceId, amount, p.currency, processor, "", "", "", None)
  }

  /** Recovered and not reversed; reinstatements do not raise it. */
  function NetRecovered(ledger: seq<Event>, invoice: string): real {
    CaseTotal(ledger, CaseRecovered, invoice) - CaseTotal(ledger, CaseReversed, invoice)
  }

  function NetReversed(ledger: seq<Event>, invoice: string): real {
    CaseTotal(ledger, CaseReversed, invoice) - CaseTotal(ledger, ReversalReverted, invoice)
  }

  function Reversed(ledger: seq<Event>, p: ReversalPayload, merchant: string, at: int, processor: string): seq<Event> {
    var net := NetRecovered(ledger, p.invoiceId);
    if net <= 0.0 then ledger
    else ledger + [Entry(CaseReversed, p, Min(p.amount, net), merchant, at, processor)]
  }

  function Reinstated(ledger: seq<Event>, p: ReversalPayload, merchant: string, at: int,
                      processor: string): seq<Event> {
    var reversed := NetReversed(ledger, p.invoiceId);
    if reversed <= 0.0 then ledger
    else ledger + [Entry(ReversalReverted, p, Min(p.amount, reversed), merchant, at, processor)]
  }

  lemma CaseNext(ledger: seq<Event>, i: nat, kind: Kind, invoice: string)
    requires i < |ledger|
    ensures CaseTotal(ledger[..i + 1], kind, invoice) ==
            CaseTotal(ledger[..i], kind, invoice)
            + if ledger[i].invoice == invoice && ledger[i].kind == kind then ledger[i].amount else 0.0
  {
    TakeNext(ledger, i);
  }

  /** One pass over the ledger: one kind raises the net, the other lowers it. */
  method NetOf(ledger: seq<Event>, invoice: string, up: Kind, down: Kind) returns (net: real)
    requires up != down
    ensures net == CaseTotal(ledger, up, invoice) - CaseTotal(ledger, down, invoice)
  {
    net := 0.0;
    var i := 0;
    while i < |ledger|
      invariant i <= |ledger| && net == CaseTotal(ledger[..i], up, invoice) - CaseTotal(ledger[..i], down, invoice)
    {
      CaseNext(ledger, i, up, invoice);
      CaseNext(ledger, i, down, invoice);
      var e := ledger[i];
      if e.invoice == invoice {
        if e.kind == up { net := net + e.amount; } else if e.kind == down { net := net - e.amount; }
      }
      i := i + 1;
    }
    assert ledger[..i] == ledger;
  }

  /** The append-only ledger of the service, and the two handlers that read it back before writing. */
  class RecoveryCaseService {
    var ledger: seq<Event>

    constructor ()
      ensures ledger == []
    {
      ledger := [];
    }

    method NetRecoveredForInvoice(invoice: string) returns (net: real)
      ensures net == NetRecovered(ledger, invoice)
    {
      net := NetOf(ledger, invoice, CaseRecovered, CaseReversed);
    }

    method NetReversedForInvoice(invoice: string) returns (net: real)
      ensures net == NetReversed(ledger, invoice)
    {
      net := NetOf(ledger, invoice, CaseReversed, ReversalReverted);
    }

    method RecordReversal(p: ReversalPayload, merchant: string, at: int, processor: string)
      modifies this
      ensures ledger == Reversed(old(ledger), p, merchant, at, processor)
    {
      var net := NetRecoveredForInvoice(p.invoiceId);
      if net <= 0.0 { return; }
      ledger := ledger + [Entry(CaseReversed, p, Min(p.amount, net), merchant, at, processor)];
    }

    method RecordReversalReverted(p: ReversalPayload, merchant: string, at: int, processor: string)
      modifies this
      ensures ledger == Reinstated(old(ledger), p, merchant, at, processor)
    {
      var reversed := NetReversedForInvoice(p.invoiceId);
      if reversed <= 0.0 { return; }
      ledger := ledger + [Entry(ReversalReverted, p, Min(p.amount, reversed), merchant, at, processor)];
    }
  }

  // ----- the balance of every invoice -----

  ghost predicate BalancedOn(ledger: seq<Event>, invoice: string) {
    CaseTotal(ledger, CaseRecovered, invoice) >= CaseTotal(ledger, CaseReversed, invoice)
      >= CaseTotal(ledger, ReversalReverted, invoice) >= 0.0
  }

  ghost predicate Balanced(ledger: seq<Event>) { forall invoice :: BalancedOn(ledger, invoice) }

  datatype Op =
    | Recover(entry: Event)
    | Reverse(payload: ReversalPayload, merchant: string, at: int, processor: string)
    | Reinstate(payload: ReversalPayload, merchant: string, at: int, processor: string)
    | Record(entry: Event)

  /** A recovery, a reversal webhook, a reinstatement webhook, or any entry that carries no money. */
  predicate Admissible(op: Op) {
    match op
    case Recover(e) => e.kind == CaseRecovered && e.amount >= 0.0
    case Reverse(p, _, _, _) => p.amount >= 0.0
    case Reinstate(p, _, _, _) => p.amount >= 0.0
    case Record(e) => !IsCase(e)
  }

  function Applied(ledger: seq<Event>, op: Op): seq<Event> {
    match op
    case Recover(e) => ledger + [e]
    case Reverse(p, m, at, processor) => Reversed(ledger, p, m, at, processor)
    case Reinstate(p, m, at, processor) => Reinstated(ledger, p, m, at, processor)
    case Record(e) => ledger + [e]
  }

  lemma AppendTotal(ledger: seq<Event>, e: Event, kind: Kind, invoice: string)
    ensures CaseTotal(ledger + [e], kind, invoice) ==
            CaseTotal(ledger, kind, invoice) + if e.invoice == invoice && e.kind == kind then e.amount else 0.0
  {
    KeyTotalAppend(ledger, e, InvoiceOf, KindAmount(kind), invoice);
  }

  lemma StepKeepsBalanced(ledger: seq<Event>, op: Op)
    requires Balanced(ledger) && Admissible(op)
    ensures Balanced(Applied(ledger, op))
  {
    forall invoice ensures BalancedOn(Applied(ledger, op), invoice) {
      assert BalancedOn(ledger, invoice);
      if Applied(ledger, op) != ledger {
        var next := Applied(ledger, op);
        AppendTotal(ledger, next[|ledger|], CaseRecovered, invoice);
        AppendTotal(ledger, next[|ledger|], CaseReversed, invoice);
        AppendTotal(ledger, next[|ledger|], ReversalReverted, invoice);
        assert next == ledger + [next[|ledger|]];
      }
    }
  }

  ghost function AppliedAll(ops: seq<Op>): seq<Event> {
    if ops == [] then [] else Applied(AppliedAll(ops[..|ops| - 1]), ops[|ops| - 1])
  }

  /** Over any run with non-negative amounts, every invoice keeps recovered >= reversed >= reinstated >= 0. */
  lemma {:induction false} RunIsBalanced(ops: seq<Op>)
    requires forall i :: 0 <= i < |ops| ==> Admissible(ops[i])
    ensures Balanced(AppliedAll(ops))
  {
    if ops == [] {
      forall invoice ensures BalancedOn([], invoice) {}
    } else {
      RunIsBalanced(ops[..|ops| - 1]);
      StepKeepsBalanced(AppliedAll(ops[..|ops| - 1]), ops[|ops| - 1]);
    }
  }

  // ----- what a merchant's outcome is -----

  /** What the books still hold for an invoice: recovered, less reversed, plus reinstated. */
  function Held(ledger: seq<Event>, invoice: string): real {
    NetRecovered(ledger, invoice) + CaseTotal(ledger, ReversalReverted, invoice)
  }

  function AmountReversed(ledger: seq<Event>, p: ReversalPayload): real {
    var net := NetRecovered(ledger, p.invoiceId);
    if net <= 0.0 then 0.0 else Min(p.amount, net)
  }

  /** With one owner per invoice, every outcome lies between nothing and what was recovered. */
  lemma OutcomeInRange(ledger: seq<Event>, merchant: string, invoice: string)
    requires Balanced(ledger) && OneOwner(ledger)
    ensures 0.0 <= OwnNet(ledger, merchant, invoice) <= OwnTotal(ledger, CaseRecovered, merchant, invoice)
  {
    assert BalancedOn(ledger, invoice);
    AllOrNone(ledger, merchant, invoice);
    NetIsSigned(ledger, OwnerOf, (merchant, invoice));
  }

  lemma OwnNetAfterReversal(ledger: seq<Event>, p: ReversalPayload, merchant: string, at: int, processor: string)
    ensures OwnNet(Reversed(ledger, p, merchant, at, processor), merchant, p.invoiceId)
            == OwnNet(ledger, merchant, p.invoiceId) - AmountReversed(ledger, p)
  {
    var e := Entry(CaseReversed, p, Min(p.amount, NetRecovered(ledger, p.invoiceId)), merchant, at, processor);
    KeyTotalAppend(ledger, e, OwnerOf, Signed, (merchant, p.invoiceId));
  }

  /** No refund of the invoice by this merchant, however large, takes its outcome below zero. */
  ghost predicate RefundsKeepOutcome(ledger: seq<Event>, merchant: string, invoice: string) {
    forall p: ReversalPayload, at, processor :: p.invoiceId == invoice && p.amount >= 0.0 ==>
      OwnNet(Reversed(ledger, p, merchant, at, processor), merchant, invoice) >= 0.0
  }

  /**
   * The cap reads the invoice, the outcome reads the merchant: no refund by a merchant can take its outcome
   * below zero exactly when what the cap leaves open is no more than that merchant's own net.
   */
  lemma ReversalKeepsOutcome(ledger: seq<Event>, merchant: string, invoice: string)
    requires OwnNet(ledger, merchant, invoice) >= 0.0
    ensures RefundsKeepOutcome(ledger, merchant, invoice) <==>
            NetRecovered(ledger, invoice) <= OwnNet(ledger, merchant, invoice)
  {
    var cap := NetRecovered(ledger, invoice);
    if cap <= OwnNet(ledger, merchant, invoice) {
      forall p: ReversalPayload, at, processor | p.invoiceId == invoice && p.amount >= 0.0
        ensures OwnNet(Reversed(ledger, p, merchant, at, processor), merchant, invoice) >= 0.0 {
        OwnNetAfterReversal(ledger, p, merchant, at, processor);
      }
    } else {
      var p := ReversalPayload(invoice, cap, "");
      OwnNetAfterReversal(ledger, p, merchant, 0, "");
      assert OwnNet(Reversed(ledger, p, merchant, 0, ""), merchant, invoice) < 0.0;
    }
  }

  lemma TotalsOfNext(ledger: seq<Event>, e: Event, invoice: string)
    ensures var next := ledger + [e];
            && CaseTotal(next, CaseRecovered, invoice) == CaseTotal(ledger, CaseRecovered, invoice)
                 + (if e.invoice == invoice && e.kind == CaseRecovered then e.amount else 0.0)
            && CaseTotal(next, CaseReversed, invoice) == CaseTotal(ledger, CaseReversed, invoice)
                 + (if e.invoice == invoice && e.kind == CaseReversed then e.amount else 0.0)
            && CaseTotal(next, ReversalReverted, invoice) == CaseTotal(ledger, ReversalReverted, invoice)
                 + (if e.invoice == invoice && e.kind == ReversalReverted then e.amount else 0.0)
  {
    AppendTotal(ledger, e, CaseRecovered, invoice);
    AppendTotal(ledger, e, CaseReversed, invoice);
    AppendTotal(ledger, e, ReversalReverted, invoice);
  }

  const RECOVERED_BY_A: Event := Event("a", CaseRecovered, Some(0), "in_1", 100.0, "USD", "", "", "", "", None)

  const DISPUTE_OF_A: ReversalPayload := ReversalPayload("in_1", 100.0, "USD")

  /** Two merchants sharing an invoice id: one recovers, the other's refund drives its own outcome below zero. */
  lemma SharedInvoiceGoesNegative()
    ensures OwnNet(Reversed([RECOVERED_BY_A], DISPUTE_OF_A, "b", 1, ""), "b", "in_1") == -100.0
  {
    TotalsOfNext([], RECOVERED_BY_A, "in_1");
    assert [] + [RECOVERED_BY_A] == [RECOVERED_BY_A];
    AbsentKeyTotal([RECOVERED_BY_A], OwnerOf, Signed, ("b", "in_1"));
    OwnNetAfterReversal([RECOVERED_BY_A], DISPUTE_OF_A, "b", 1, "");
  }

  function AmountReinstated(ledger: seq<Event>, p: ReversalPayload): real {
    var reversed := NetReversed(ledger, p.invoiceId);
    if reversed <= 0.0 then 0.0 else Min(p.amount, reversed)
  }

  /** By how much a merchant's outcome falls short of what it recovered on the invoice. */
  function Headroom(ledger: seq<Event>, merchant: string, invoice: string): real {
    OwnTotal(ledger, CaseRecovered, merchant, invoice) - OwnNet(ledger, merchant, invoice)
  }

  lemma HeadroomAfterReinstatement(ledger: seq<Event>, p: ReversalPayload, merchant: string, at: int,
                                   processor: string)
    ensures Headroom(Reinstated(ledger, p, merchant, at, processor), merchant, p.invoiceId)
            == Headroom(ledger, merchant, p.invoiceId) - AmountReinstated(ledger, p)
  {
    var e := Entry(ReversalReverted, p, Min(p.amount, NetReversed(ledger, p.invoiceId)), merchant, at, processor);
    KeyTotalAppend(ledger, e, OwnerOf, Signed, (merchant, p.invoiceId));
    KeyTotalAppend(ledger, e, OwnerOf, KindAmount(CaseRecovered), (merchant, p.invoiceId));
  }

  /** No won dispute of the invoice by this merchant, however large, takes its outcome above what it recovered. */
  ghost predicate ReinstatementsKeepOutcome(ledger: seq<Event>, merchant: string, invoice: string) {
    forall p: ReversalPayload, at, processor :: p.invoiceId == invoice && p.amount >= 0.0 ==>
      Headroom(Reinstated(ledger, p, merchant, at, processor), merchant, invoice) >= 0.0
  }

  /**
   * The upper end likewise: no won dispute by a merchant can take its outcome above what it recovered exactly when
   * what stands reversed on the invoice is no more than what that merchant's outcome falls short by.
   */
  lemma ReinstatementKeepsOutcome(ledger: seq<Event>, merchant: string, invoice: string)
    requires Headroom(ledger, merchant, invoice) >= 0.0
    ensures ReinstatementsKeepOutcome(ledger, merchant, invoice) <==>
            NetReversed(ledger, invoice) <= Headroom(ledger, merchant, invoice)
  {
    var cap := NetReversed(ledger, invoice);
    if cap <= Headroom(ledger, merchant, invoice) {
      forall p: ReversalPayload, at, processor | p.invoiceId == invoice && p.amount >= 0.0
        ensures Headroom(Reinstated(ledger, p, merchant, at, processor), merchant, invoice) >= 0.0 {
        HeadroomAfterReinstatement(ledger, p, merchant, at, processor);
      }
    } else {
      var p := ReversalPayload(invoice, cap, "");
      HeadroomAfterReinstatement(ledger, p, merchant, 0, "");
      assert Headroom(Reinstated(ledger, p, merchant, 0, ""), merchant, invoice) < 0.0;
    }
  }

  /** One merchant's payment is recovered and disputed. */
  lemma DisputedByA(disputed: seq<Event>)
    requires disputed == Reversed([RECOVERED_BY_A], DISPUTE_OF_A, "a", 1, "")
    ensures disputed == [RECOVERED_BY_A] + [Entry(CaseReversed, DISPUTE_OF_A, 100.0, "a", 1, "")]
    ensures NetReversed(disputed, "in_1") == 100.0
  {
    TotalsOfNext([], RECOVERED_BY_A, "in_1");
    assert [] + [RECOVERED_BY_A] == [RECOVERED_BY_A];
    TotalsOfNext([RECOVERED_BY_A], Entry(CaseReversed, DISPUTE_OF_A, 100.0, "a", 1, ""), "in_1");
  }

  /** Another's won dispute on the same invoice id then gives that merchant what it never recovered. */
  lemma SharedInvoiceExceedsRecovered()
    ensures var won := Reinstated(Reversed([RECOVERED_BY_A], DISPUTE_OF_A, "a", 1, ""), DISPUTE_OF_A, "b", 2, "");
            OwnNet(won, "b", "in_1") == 100.0 && OwnTotal(won, CaseRecovered, "b", "in_1") == 0.0
  {
    var disputed := Reversed([RECOVERED_BY_A], DISPUTE_OF_A, "a", 1, "");
    var e := Entry(ReversalReverted, DISPUTE_OF_A, 100.0, "b", 2, "");
    DisputedByA(disputed);
    AbsentKeyTotal(disputed, OwnerOf, Signed, ("b", "in_1"));
    AbsentKeyTotal(disputed, OwnerOf, KindAmount(CaseRecovered), ("b", "in_1"));
    KeyTotalAppend(disputed, e, OwnerOf, Signed, ("b", "in_1"));
    KeyTotalAppend(disputed, e, OwnerOf, KindAmount(CaseRecovered), ("b", "in_1"));
  }

  /**
   * The cap ignores reinstatements, so a second dispute can go unrecorded: the whole of what is held is
   * clawed back exactly when nothing was ever reinstated or the amount fits in what was never reversed.
   */
  lemma ClawbackComplete(ledger: seq<Event>, p: ReversalPayload)
    requires BalancedOn(ledger, p.invoiceId) && p.amount >= 0.0
    ensures AmountReversed(ledger, p) == Min(p.amount, Held(ledger, p.invoiceId)) <==>
            CaseTotal(ledger, ReversalReverted, p.invoiceId) == 0.0 || p.amount <= NetRecovered(ledger, p.invoiceId)
  {
  }

  lemma AppliedNext(ops: seq<Op>, op: Op)
    ensures AppliedAll(ops + [op]) == Applied(AppliedAll(ops), op)
  {
    assert (ops + [op])[..|ops|] == ops;
  }

  /** A payment recovered, disputed, won back. */
  function WonBack(recovery: Event, p: ReversalPayload, at: int): seq<Op> {
    [Recover(recovery), Reverse(p, recovery.merchant, at, recovery.processor),
     Reinstate(p, recovery.merchant, at, recovery.processor)]
  }

  /** What stands recovered, reversed and reinstated on an invoice. */
  predicate Totals(ledger: seq<Event>, invoice: string, recovered: real, reversed: real, reinstated: real) {
    && CaseTotal(ledger, CaseRecovered, invoice) == recovered && CaseTotal(ledger, CaseReversed, invoice) == reversed
    && CaseTotal(ledger, ReversalReverted, invoice) == reinstated
  }

  lemma RecoveredWhole(recovery: Event)
    requires recovery.kind == CaseRecovered
    ensures Totals([] + [recovery], recovery.invoice, recovery.amount, 0.0, 0.0)
  {
    TotalsOfNext([], recovery, recovery.invoice);
  }

  lemma DisputedWhole(ledger: seq<Event>, p: ReversalPayload, m: string, at: int, processor: string)
    requires Totals(ledger, p.invoiceId, p.amount, 0.0, 0.0) && p.amount > 0.0
    ensures Totals(Reversed(ledger, p, m, at, processor), p.invoiceId, p.amount, p.amount, 0.0)
  {
    TotalsOfNext(ledger, Entry(CaseReversed, p, p.amount, m, at, processor), p.invoiceId);
  }

  lemma ReinstatedWhole(ledger: seq<Event>, p: ReversalPayload, m: string, at: int, processor: string)
    requires Totals(ledger, p.invoiceId, p.amount, p.amount, 0.0) && p.amount > 0.0
    ensures Totals(Reinstated(ledger, p, m, at, processor), p.invoiceId, p.amount, p.amount, p.amount)
  {
    TotalsOfNext(ledger, Entry(ReversalReverted, p, p.amount, m, at, processor), p.invoiceId);
  }

  /** All of a payment won back stands recovered, reversed and reinstated. */
  lemma WonBackTotals(recovery: Event, p: ReversalPayload, at: int)
    requires recovery.kind == CaseRecovered && recovery.amount > 0.0
    requires p.invoiceId == recovery.invoice && p.amount == recovery.amount
    ensures Totals(AppliedAll(WonBack(recovery, p, at)), p.invoiceId, p.amount, p.amount, p.amount)
  {
    var m, processor, none: seq<Op> := recovery.merchant, recovery.processor, [];
    var first := none + [Recover(recovery)];
    var second := first + [Reverse(p, m, at, processor)];
    AppliedNext(none, Recover(recovery));
    RecoveredWhole(recovery);
    AppliedNext(first, Reverse(p, m, at, processor));
    DisputedWhole(AppliedAll(first), p, m, at, processor);
    AppliedNext(second, Reinstate(p, m, at, processor));
    ReinstatedWhole(AppliedAll(second), p, m, at, processor);
    assert WonBack(recovery, p, at) == second + [Reinstate(p, m, at, processor)];
  }

  /** A payment recovered, disputed, won back and disputed again: the second dispute leaves no entry. */
  lemma SecondDisputeUnrecorded(recovery: Event, p: ReversalPayload, at: int)
    requires recovery.kind == CaseRecovered && recovery.amount > 0.0
    requires p.invoiceId == recovery.invoice && p.amount == recovery.amount
    ensures var disputed := WonBack(recovery, p, at) + [Reverse(p, recovery.merchant, at, recovery.processor)];
            && (forall i :: 0 <= i < |disputed| ==> Admissible(disputed[i]))
            && AppliedAll(disputed) == AppliedAll(WonBack(recovery, p, at))
            && Held(AppliedAll(disputed), p.invoiceId) == p.amount > 0.0
  {
    var ops := WonBack(recovery, p, at);
    WonBackTotals(recovery, p, at);
    AppliedNext(ops, Reverse(p, recovery.merchant, at, recovery.processor));
  }

  // ----- runs whose inputs agree -----

  predicate MovesMoney(op: Op) { !op.Record? }

  function OpInvoice(op: Op): string {
    match op
    case Recover(e) => e.invoice
    case Reverse(p, _, _, _) => p.invoiceId
    case Reinstate(p, _, _, _) => p.invoiceId
    case Record(e) => e.invoice
  }

  function OpMerchant(op: Op): string {
    match op
    case Recover(e) => e.merchant
    case Reverse(_, m, _, _) => m
    case Reinstate(_, m, _, _) => m
    case Record(e) => e.merchant
  }

  function OpCurrency(op: Op): string {
    match op
    case Recover(e) => e.currency
    case Reverse(p, _, _, _) => p.currency
    case Reinstate(p, _, _, _) => p.currency
    case Record(e) => e.currency
  }

  ghost predicate WrittenBy(e: Event, op: Op) {
    MovesMoney(op) && e.invoice == OpInvoice(op) && e.merchant == OpMerchant(op) && e.currency == OpCurrency(op)
  }

  /** Every money entry was written by an operation of the run, for its merchant and in its currency. */
  lemma {:induction false} EntryWritten(ops: seq<Op>, e: Event)
    requires forall i :: 0 <= i < |ops| ==> Admissible(ops[i])
    requires e in AppliedAll(ops) && IsCase(e)
    ensures exists i :: 0 <= i < |ops| && WrittenBy(e, ops[i])
  {
    var n := |ops| - 1;
    if e in AppliedAll(ops[..n]) {
      EntryWritten(ops[..n], e);
      var i :| 0 <= i < n && WrittenBy(e, ops[..n][i]);
      assert WrittenBy(e, ops[i]);
    } else {
      assert WrittenBy(e, ops[n]);
    }
  }

  ghost predicate SameInvoice(ops: seq<Op>, i: int, j: int) {
    && 0 <= i < |ops| && 0 <= j < |ops| && MovesMoney(ops[i]) && MovesMoney(ops[j])
    && OpInvoice(ops[i]) == OpInvoice(ops[j])
  }

  /** Recoveries and reversals of one invoice always come for one merchant. */
  ghost predicate OneMerchantPerInvoice(ops: seq<Op>) {
    forall i, j :: SameInvoice(ops, i, j) ==> OpMerchant(ops[i]) == OpMerchant(ops[j])
  }

  lemma RunHasOneOwner(ops: seq<Op>)
    requires OneMerchantPerInvoice(ops) && forall i :: 0 <= i < |ops| ==> Admissible(ops[i])
    ensures OneOwner(AppliedAll(ops))
  {
    var ledger := AppliedAll(ops);
    forall d, e | d in ledger && e in ledger && IsCase(d) && IsCase(e) && d.invoice == e.invoice
      ensures d.merchant == e.merchant {
      EntryWritten(ops, d);
      EntryWritten(ops, e);
      var i, j :| 0 <= i < |ops| && WrittenBy(d, ops[i]) && 0 <= j < |ops| && WrittenBy(e, ops[j]);
      assert SameInvoice(ops, i, j);
    }
  }
}
