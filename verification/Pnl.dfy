/** Profit and loss: accumulation, net and fee, the split by processor, and what the figures can be. */
module Pnl {
  import opened RealArithmetic
  import opened RecoveryEvents
  import opened Reversals
  import opened Sums
  import opened Wrappers

  datatype Totals = Totals(
    recovered: real, gross: real, reversed: real, reinstated: real, fee: int, clawback: int,
    recoveries: nat, reversals: nat, reinstatements: nat, attempts: nat, comms: nat)

  const EMPTY: Totals := Totals(0.0, 0.0, 0.0, 0.0, 0, 0, 0, 0, 0, 0, 0)

  /** Entries without a currency count as the reporting currency. */
  predicate Counts(e: Event, currency: string) { e.currency == "" || e.currency == currency }

  function Accumulated(t: Totals, e: Event, currency: string): Totals {
    match e.kind
    case CaseRecovered =>
      if Counts(e, currency) then t.(gross := t.gross + e.amount, recoveries := t.recoveries + 1) else t
    case CaseReversed =>
      if Counts(e, currency) then t.(reversed := t.reversed + e.amount, reversals := t.reversals + 1) else t
    case ReversalReverted =>
      if Counts(e, currency) then t.(reinstated := t.reinstated + e.amount, reinstatements := t.reinstatements + 1)
      else t
    case ChargeSucceeded => t.(attempts := t.attempts + 1)
    case ChargeFailed => t.(attempts := t.attempts + 1)
    case CommsSent => t.(comms := t.comms + 1)
    case _ => t
  }

  function FeeOn(net: real, feeRate: real): int { Round(net * feeRate) }

  function WithFee(t: Totals, feeRate: real): Totals {
    var net := t.gross - t.reversed + t.reinstated;
    t.(recovered := net, fee := FeeOn(net, feeRate), clawback := FeeOn(t.reversed - t.reinstated, feeRate))
  }

  class PnlTotals {
    var gross: real
    var reversed: real
    var reinstated: real
    var recoveries: nat
    var reversals: nat
    var reinstatements: nat
    var attempts: nat
    var comms: nat

    constructor ()
      ensures View() == EMPTY
    {
      gross, reversed, reinstated := 0.0, 0.0, 0.0;
      recoveries, reversals, reinstatements, attempts, comms := 0, 0, 0, 0, 0;
    }

    function View(): Totals
      reads this
    {
      Totals(0.0, gross, reversed, reinstated, 0, 0, recoveries, reversals, reinstatements, attempts, comms)
    }

    method Accumulate(e: Event, currency: string)
      modifies this
      ensures View() == Accumulated(old(View()), e, currency)
    {
      match e.kind {
        case CaseRecovered =>
          if Counts(e, currency) { gross, recoveries := gross + e.amount, recoveries + 1; }
        case CaseReversed =>
          if Counts(e, currency) { reversed, reversals := reversed + e.amount, reversals + 1; }
        case ReversalReverted =>
          if Counts(e, currency) { reinstated, reinstatements := reinstated + e.amount, reinstatements + 1; }
        case ChargeSucceeded => attempts := attempts + 1;
        case ChargeFailed => attempts := attempts + 1;
        case CommsSent => comms := comms + 1;
        case _ =>
      }
    }
  }

  function AccumulatedAll(entries: seq<Event>, currency: string): Totals {
    if entries == [] then EMPTY
    else Accumulated(AccumulatedAll(entries[..|entries| - 1], currency), entries[|entries| - 1], currency)
  }

  function TotalsOf(entries: seq<Event>, feeRate: real, currency: string): Totals {
    WithFee(AccumulatedAll(entries, currency), feeRate)
  }

  method ProcessorPnl(entries: seq<Event>, feeRate: real, currency: string) returns (t: Totals)
    ensures t == TotalsOf(entries, feeRate, currency)
  {
    var totals := new PnlTotals();
    var i := 0;
    while i < |entries|
      invariant i <= |entries| && totals.View() == AccumulatedAll(entries[..i], currency)
    {
      TakeNext(entries, i);
      totals.Accumulate(entries[i], currency);
      i := i + 1;
    }
    assert entries[..i] == entries;
    t := WithFee(totals.View(), feeRate);
  }

  function ProcessorOf(e: Event): string { if e.processor != "" then e.processor else "unknown" }

  method ProcessorRows(order: seq<string>, groups: map<string, seq<Event>>, feeRate: real, currency: string)
    returns (rows: map<string, Totals>)
    requires forall p :: p in order ==> p in groups
    ensures forall p :: p in rows <==> p in order
    ensures forall p :: p in rows ==> p in groups && rows[p] == TotalsOf(groups[p], feeRate, currency)
  {
    rows := map[];
    var i := 0;
    while i < |order|
      invariant i <= |order| && forall p :: p in rows <==> p in order[..i]
      invariant forall p :: p in rows ==> p in groups && rows[p] == TotalsOf(groups[p], feeRate, currency)
    {
      var t := ProcessorPnl(groups[order[i]], feeRate, currency);
      rows := rows[order[i] := t];
      i := i + 1;
    }
  }

  method ComputePnl(entries: seq<Event>, feeRate: real, currency: string)
    returns (cumulative: Totals, processors: map<string, Totals>)
    ensures cumulative == TotalsOf(entries, feeRate, currency)
    ensures forall p :: p in processors <==> p in Distinct(entries, ProcessorOf)
    ensures forall p :: p in processors ==>
              processors[p] == TotalsOf(Having(entries, ProcessorOf, p), feeRate, currency)
  {
    var order, groups := GroupBy(entries, ProcessorOf);
    processors := ProcessorRows(order, groups, feeRate, currency);
    cumulative := ProcessorPnl(entries, feeRate, currency);
  }

  // ----- what the figures are -----

  function InCurrency(kind: Kind, currency: string): Event -> real {
    (e: Event) => if e.kind == kind && Counts(e, currency) then e.amount else 0.0
  }

  function NetInCurrency(currency: string): Event -> real {
    (e: Event) => if Counts(e, currency) then Signed(e) else 0.0
  }

  /** Net recovered in the reporting currency. */
  function Net(entries: seq<Event>, currency: string): real { Total(entries, NetInCurrency(currency)) }

  function Gross(entries: seq<Event>, currency: string): real { Total(entries, InCurrency(CaseRecovered, currency)) }

  lemma {:induction false} MoneyTotals(entries: seq<Event>, currency: string)
    ensures var t := AccumulatedAll(entries, currency);
            t.gross == Gross(entries, currency) && t.gross - t.reversed + t.reinstated == Net(entries, currency)
  {
    if entries != [] { MoneyTotals(entries[..|entries| - 1], currency); }
  }

  /** The accumulated row reports the net and the fee on it. */
  lemma RowReports(entries: seq<Event>, feeRate: real, currency: string)
    ensures var t := TotalsOf(entries, feeRate, currency);
            && t.gross == Gross(entries, currency) && t.recovered == Net(entries, currency)
            && t.fee == FeeOn(Net(entries, currency), feeRate)
  {
    MoneyTotals(entries, currency);
  }

  /** Net recovered is the sum of the per-invoice nets, and of the per-processor nets. */
  lemma NetAddsUp<K>(entries: seq<Event>, currency: string, key: Event -> K)
    ensures Net(entries, currency) == Total(Distinct(entries, key), KeyTotals(entries, key, NetInCurrency(currency)))
    ensures Gross(entries, currency) ==
            Total(Distinct(entries, key), KeyTotals(entries, key, InCurrency(CaseRecovered, currency)))
  {
    KeysAddUp(entries, key, NetInCurrency(currency));
    KeysAddUp(entries, key, InCurrency(CaseRecovered, currency));
  }

  function ProcessorNet(entries: seq<Event>, currency: string): string -> real {
    p => Net(Having(entries, ProcessorOf, p), currency)
  }

  /** The processor rows partition the cumulative row. */
  lemma ProcessorsAddUp(entries: seq<Event>, currency: string)
    ensures Total(Distinct(entries, ProcessorOf), ProcessorNet(entries, currency)) == Net(entries, currency)
  {
    NetAddsUp(entries, currency, ProcessorOf);
    forall p ensures ProcessorNet(entries, currency)(p) == KeyTotals(entries, ProcessorOf, NetInCurrency(currency))(p) {
      HavingTotal(entries, ProcessorOf, p, NetInCurrency(currency));
    }
    TotalPointwise(Distinct(entries, ProcessorOf), ProcessorNet(entries, currency),
                   KeyTotals(entries, ProcessorOf, NetInCurrency(currency)));
  }

  lemma RoundNear(x: real)
    ensures x - 0.5 < Round(x) as real <= x + 0.5
  {
  }

  lemma FeeNear(net: real, feeRate: real)
    ensures net * feeRate - 0.5 < FeeOn(net, feeRate) as real <= net * feeRate + 0.5
  {
    RoundNear(net * feeRate);
  }

  /** The fees of a list of rows, each rounded by itself. */
  function FeeTotal(keys: seq<string>, net: string -> real, feeRate: real): int {
    if keys == [] then 0 else FeeTotal(keys[..|keys| - 1], net, feeRate) + FeeOn(net(keys[|keys| - 1]), feeRate)
  }

  lemma {:induction false} FeeTotalNear(keys: seq<string>, net: string -> real, feeRate: real)
    ensures Total(keys, net) * feeRate - |keys| as real * 0.5 <= FeeTotal(keys, net, feeRate) as real
    ensures FeeTotal(keys, net, feeRate) as real <= Total(keys, net) * feeRate + |keys| as real * 0.5
  {
    if keys != [] {
      var n := |keys| - 1;
      FeeTotalNear(keys[..n], net, feeRate);
      FeeNear(net(keys[n]), feeRate);
      Distribute(feeRate, Total(keys[..n], net), net(keys[n]));
    }
  }

  lemma HalvesApart(exact: real, fees: int, fee: int, n: nat)
    requires exact - n as real * 0.5 <= fees as real <= exact + n as real * 0.5
    requires exact - 0.5 < fee as real <= exact + 0.5
    ensures -(n + 1) <= 2 * (fees - fee) <= n + 1
  {
  }

  lemma FeesNearFee(keys: seq<string>, net: string -> real, feeRate: real, total: real)
    requires Total(keys, net) == total
    ensures -(|keys| + 1) <= 2 * (FeeTotal(keys, net, feeRate) - FeeOn(total, feeRate)) <= |keys| + 1
  {
    var fees, fee := FeeTotal(keys, net, feeRate), FeeOn(total, feeRate);
    FeeTotalNear(keys, net, feeRate);
    FeeNear(total, feeRate);
    HalvesApart(total * feeRate, fees, fee, |keys|);
  }

  /** Processor fees are rounded one by one: they add up to the cumulative fee within half a unit per row. */
  lemma ProcessorFeesNearly(entries: seq<Event>, feeRate: real, currency: string)
    ensures var rows := Distinct(entries, ProcessorOf);
            var fees, fee := FeeTotal(rows, ProcessorNet(entries, currency), feeRate),
                   FeeOn(Net(entries, currency), feeRate);
            var gap := fees - fee;
            -(|rows| + 1) <= 2 * gap <= |rows| + 1
  {
    var rows, net := Distinct(entries, ProcessorOf), ProcessorNet(entries, currency);
    ProcessorsAddUp(entries, currency);
    FeesNearFee(rows, net, feeRate, Net(entries, currency));
  }

  // ----- the net stays between nothing and gross -----

  /** All money entries of an invoice are in the reporting currency, or none is. */
  ghost predicate OneCurrencyPerInvoice(entries: seq<Event>, currency: string) {
    forall d, e :: d in entries && e in entries && IsCase(d) && IsCase(e) && d.invoice == e.invoice ==>
      (Counts(d, currency) <==> Counts(e, currency))
  }

  lemma {:induction false} CountedOnKey(entries: seq<Event>, currency: string, invoice: string, counted: bool)
    requires forall e :: e in entries && IsCase(e) && e.invoice == invoice ==> (Counts(e, currency) <==> counted)
    ensures KeyTotal(entries, InvoiceOf, NetInCurrency(currency), invoice) ==
            if counted then KeyTotal(entries, InvoiceOf, Signed, invoice) else 0.0
    ensures KeyTotal(entries, InvoiceOf, InCurrency(CaseRecovered, currency), invoice) ==
            if counted then CaseTotal(entries, CaseRecovered, invoice) else 0.0
  {
    if entries != [] { CountedOnKey(entries[..|entries| - 1], currency, invoice, counted); }
  }

  lemma InvoiceInRange(entries: seq<Event>, currency: string, invoice: string)
    requires Balanced(entries) && OneCurrencyPerInvoice(entries, currency)
    ensures 0.0 <= KeyTotal(entries, InvoiceOf, NetInCurrency(currency), invoice)
            <= KeyTotal(entries, InvoiceOf, InCurrency(CaseRecovered, currency), invoice)
  {
    var counted := exists e :: e in entries && IsCase(e) && e.invoice == invoice && Counts(e, currency);
    CountedOnKey(entries, currency, invoice, counted);
    NetIsSigned(entries, InvoiceOf, invoice);
    assert BalancedOn(entries, invoice);
  }

  lemma {:induction false} TotalBetween<K>(keys: seq<K>, f: K -> real, g: K -> real)
    requires forall k :: k in keys ==> 0.0 <= f(k) <= g(k)
    ensures 0.0 <= Total(keys, f) <= Total(keys, g)
  {
    if keys != [] { TotalBetween(keys[..|keys| - 1], f, g); }
  }

  lemma FeeBetween(net: real, gross: real, feeRate: real)
    requires 0.0 <= net <= gross && feeRate >= 0.0
    ensures 0 <= FeeOn(net, feeRate) <= FeeOn(gross, feeRate)
  {
    Scaled(0.0, net, feeRate);
    Scaled(net, gross, feeRate);
  }

  /** On a balanced ledger with one currency per invoice, net lies between 0 and gross, and so does the fee. */
  lemma PnlInRange(entries: seq<Event>, feeRate: real, currency: string)
    requires Balanced(entries) && OneCurrencyPerInvoice(entries, currency) && feeRate >= 0.0
    ensures 0.0 <= Net(entries, currency) <= Gross(entries, currency)
    ensures 0 <= FeeOn(Net(entries, currency), feeRate) <= FeeOn(Gross(entries, currency), feeRate)
  {
    forall invoice ensures 0.0 <= KeyTotals(entries, InvoiceOf, NetInCurrency(currency))(invoice)
        <= KeyTotals(entries, InvoiceOf, InCurrency(CaseRecovered, currency))(invoice) {
      InvoiceInRange(entries, currency, invoice);
    }
    NetAddsUp(entries, currency, InvoiceOf);
    TotalBetween(Distinct(entries, InvoiceOf), KeyTotals(entries, InvoiceOf, NetInCurrency(currency)),
                 KeyTotals(entries, InvoiceOf, InCurrency(CaseRecovered, currency)));
    FeeBetween(Net(entries, currency), Gross(entries, currency), feeRate);
  }

  const USD_RECOVERY: Event := Event("a", CaseRecovered, Some(0), "in_1", 100.0, "USD", "stripe", "", "", "", None)

  const EUR_REFUND: Event := Event("a", CaseReversed, Some(1), "in_1", 100.0, "EUR", "stripe", "", "", "", None)

  lemma RefundRecorded()
    ensures Reversed([USD_RECOVERY], ReversalPayload("in_1", 100.0, "EUR"), "a", 1, "stripe") ==
            [USD_RECOVERY] + [EUR_REFUND]
  {
    AppendTotal([], USD_RECOVERY, CaseRecovered, "in_1");
    AppendTotal([], USD_RECOVERY, CaseReversed, "in_1");
    assert [] + [USD_RECOVERY] == [USD_RECOVERY];
  }

  /** The reversal cap ignores currency: a refund in another currency makes that currency's net negative. */
  lemma MixedCurrencyGoesNegative()
    ensures var ledger := Reversed([USD_RECOVERY], ReversalPayload("in_1", 100.0, "EUR"), "a", 1, "stripe");
            Net(ledger, "EUR") == -100.0 && Net(ledger, "USD") == 100.0
  {
    RefundRecorded();
    assert [] + [USD_RECOVERY] == [USD_RECOVERY];
    TotalAppend([], USD_RECOVERY, NetInCurrency("EUR"));
    TotalAppend([USD_RECOVERY], EUR_REFUND, NetInCurrency("EUR"));
    TotalAppend([], USD_RECOVERY, NetInCurrency("USD"));
    TotalAppend([USD_RECOVERY], EUR_REFUND, NetInCurrency("USD"));
  }

  // ----- refunds in another currency -----

  /** What the P&L in one currency shows for an invoice. */
  function InvoiceNet(entries: seq<Event>, currency: string, invoice: string): real {
    KeyTotal(entries, InvoiceOf, NetInCurrency(currency), invoice)
  }

  lemma InvoiceNetAfterReversal(ledger: seq<Event>, p: ReversalPayload, currency: string, merchant: string, at: int,
                                processor: string)
    ensures InvoiceNet(Reversed(ledger, p, merchant, at, processor), currency, p.invoiceId)
            == InvoiceNet(ledger, currency, p.invoiceId)
               - if p.currency == "" || p.currency == currency then AmountReversed(ledger, p) else 0.0
  {
    var e := Entry(CaseReversed, p, Min(p.amount, NetRecovered(ledger, p.invoiceId)), merchant, at, processor);
    KeyTotalAppend(ledger, e, InvoiceOf, NetInCurrency(currency), p.invoiceId);
  }

  /** No refund of the invoice, whatever its amount and currency, takes its net in this currency below zero. */
  ghost predicate RefundsKeepNet(ledger: seq<Event>, currency: string, invoice: string) {
    forall p: ReversalPayload, merchant, at, processor :: p.invoiceId == invoice && p.amount >= 0.0 ==>
      InvoiceNet(Reversed(ledger, p, merchant, at, processor), currency, invoice) >= 0.0
  }

  /**
   * The cap adds up all currencies: no refund can take an invoice's net in a currency below zero exactly when
   * what the cap leaves open is no more than the net in that currency.
   */
  lemma RefundKeepsCurrencyNet(ledger: seq<Event>, currency: string, invoice: string)
    requires InvoiceNet(ledger, currency, invoice) >= 0.0
    ensures RefundsKeepNet(ledger, currency, invoice) <==>
            NetRecovered(ledger, invoice) <= InvoiceNet(ledger, currency, invoice)
  {
    var cap := NetRecovered(ledger, invoice);
    if cap <= InvoiceNet(ledger, currency, invoice) {
      forall p: ReversalPayload, merchant, at, processor | p.invoiceId == invoice && p.amount >= 0.0
        ensures InvoiceNet(Reversed(ledger, p, merchant, at, processor), currency, invoice) >= 0.0 {
        InvoiceNetAfterReversal(ledger, p, currency, merchant, at, processor);
      }
    } else {
      var p := ReversalPayload(invoice, cap, currency);
      InvoiceNetAfterReversal(ledger, p, currency, "", 0, "");
      assert InvoiceNet(Reversed(ledger, p, "", 0, ""), currency, invoice) < 0.0;
    }
  }

  /** By how much an invoice's net in this currency falls short of what was recovered in it. */
  function Shortfall(entries: seq<Event>, currency: string, invoice: string): real {
    KeyTotal(entries, InvoiceOf, InCurrency(CaseRecovered, currency), invoice) - InvoiceNet(entries, currency, invoice)
  }

  lemma ShortfallAfterReinstatement(ledger: seq<Event>, p: ReversalPayload, currency: string, merchant: string, at: int,
                                    processor: string)
    ensures Shortfall(Reinstated(ledger, p, merchant, at, processor), currency, p.invoiceId)
            == Shortfall(ledger, currency, p.invoiceId)
               - if p.currency == "" || p.currency == currency then AmountReinstated(ledger, p) else 0.0
  {
    var e := Entry(ReversalReverted, p, Min(p.amount, NetReversed(ledger, p.invoiceId)), merchant, at, processor);
    KeyTotalAppend(ledger, e, InvoiceOf, NetInCurrency(currency), p.invoiceId);
    KeyTotalAppend(ledger, e, InvoiceOf, InCurrency(CaseRecovered, currency), p.invoiceId);
  }

  /** No won dispute of the invoice takes its net in this currency above what was recovered in it. */
  ghost predicate ReinstatementsKeepNet(ledger: seq<Event>, currency: string, invoice: string) {
    forall p: ReversalPayload, merchant, at, processor :: p.invoiceId == invoice && p.amount >= 0.0 ==>
      Shortfall(Reinstated(ledger, p, merchant, at, processor), currency, invoice) >= 0.0
  }

  /** Exactly when what stands reversed on the invoice, in all currencies, is no more than the shortfall in this one. */
  lemma ReinstatementKeepsCurrencyNet(ledger: seq<Event>, currency: string, invoice: string)
    requires Shortfall(ledger, currency, invoice) >= 0.0
    ensures ReinstatementsKeepNet(ledger, currency, invoice) <==>
            NetReversed(ledger, invoice) <= Shortfall(ledger, currency, invoice)
  {
    var cap := NetReversed(ledger, invoice);
    if cap <= Shortfall(ledger, currency, invoice) {
      forall p: ReversalPayload, merchant, at, processor | p.invoiceId == invoice && p.amount >= 0.0
        ensures Shortfall(Reinstated(ledger, p, merchant, at, processor), currency, invoice) >= 0.0 {
        ShortfallAfterReinstatement(ledger, p, currency, merchant, at, processor);
      }
    } else {
      var p := ReversalPayload(invoice, cap, currency);
      ShortfallAfterReinstatement(ledger, p, currency, "", 0, "");
      assert Shortfall(Reinstated(ledger, p, "", 0, ""), currency, invoice) < 0.0;
    }
  }

  /** Refunds and won disputes come in the currency the invoice was recovered in. */
  ghost predicate OneCurrencyInputs(ops: seq<Op>) {
    forall i, j :: SameInvoice(ops, i, j) ==> OpCurrency(ops[i]) == OpCurrency(ops[j])
  }

  /** Over any run whose inputs keep each invoice in one currency, every currency's P&L is in range. */
  lemma RunPnlInRange(ops: seq<Op>, feeRate: real, currency: string)
    requires OneCurrencyInputs(ops) && feeRate >= 0.0 && forall i :: 0 <= i < |ops| ==> Admissible(ops[i])
    ensures var ledger := AppliedAll(ops);
            && 0.0 <= Net(ledger, currency) <= Gross(ledger, currency)
            && 0 <= FeeOn(Net(ledger, currency), feeRate) <= FeeOn(Gross(ledger, currency), feeRate)
  {
    var ledger := AppliedAll(ops);
    RunIsBalanced(ops);
    forall d, e | d in ledger && e in ledger && IsCase(d) && IsCase(e) && d.invoice == e.invoice
      ensures Counts(d, currency) <==> Counts(e, currency) {
      EntryWritten(ops, d);
      EntryWritten(ops, e);
      var i, j :| 0 <= i < |ops| && WrittenBy(d, ops[i]) && 0 <= j < |ops| && WrittenBy(e, ops[j]);
      assert SameInvoice(ops, i, j);
    }
    PnlInRange(ledger, feeRate, currency);
  }
}
