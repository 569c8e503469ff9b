/** A chargeback that takes a proven bound down, and the won dispute that brings it back: what both bills come to. */
module DisputedBounds {
  import opened BillingHistory
  import opened BillingRun
  import opened HoldoutEconomics
  import opened Observations
  import opened RealArithmetic
  import opened RecoveryEvents
  import opened Reversals
  import opened Sums
  import opened Wrappers
  import U = Uplift

  ghost predicate OnlyStatements(tail: seq<Event>) {
    forall i :: 0 <= i < |tail| ==> tail[i].kind == UpliftStatement
  }

  lemma StatementsKeepTotals(ledger: seq<Event>, statements: seq<Event>)
    requires OnlyStatements(statements)
    ensures forall kind, invoice :: kind != UpliftStatement ==>
              CaseTotal(ledger + statements, kind, invoice) == CaseTotal(ledger, kind, invoice)
    ensures forall merchant, invoice ::
              OwnNet(ledger + statements, merchant, invoice) == OwnNet(ledger, merchant, invoice)
  {
    forall kind, invoice | kind != UpliftStatement
      ensures CaseTotal(ledger + statements, kind, invoice) == CaseTotal(ledger, kind, invoice) {
      StatementsAddNothing(ledger, statements, InvoiceOf, KindAmount(kind), invoice);
    }
    forall merchant, invoice
      ensures OwnNet(ledger + statements, merchant, invoice) == OwnNet(ledger, merchant, invoice) {
      StatementsAddNothing(ledger, statements, OwnerOf, Signed, (merchant, invoice));
    }
  }

  // ----- a dispute disputed and won -----

  datatype Dispute = Dispute(payload: ReversalPayload, merchant: string, processor: string)

  function Opened(ledger: seq<Event>, d: Dispute, at: int): seq<Event> {
    Reversed(ledger, d.payload, d.merchant, at, d.processor)
  }

  function Won(ledger: seq<Event>, d: Dispute, at: int): seq<Event> {
    Reinstated(ledger, d.payload, d.merchant, at, d.processor)
  }

  /** The ledger when a dispute is disputed after one list of statements and won after another. */
  function Restored(ledger: seq<Event>, first: seq<Event>, second: seq<Event>, d: Dispute, at: int,
                    wonAt: int): seq<Event> {
    Won(Opened(ledger + first, d, at) + second, d, wonAt)
  }

  /** The entries the dispute and the statements around it append. */
  function DisputeTail(ledger: seq<Event>, first: seq<Event>, second: seq<Event>, d: Dispute, at: int,
                       wonAt: int): seq<Event> {
    var a := AmountReversed(ledger, d.payload);
    if a == 0.0 then first + second
    else first + [Entry(CaseReversed, d.payload, a, d.merchant, at, d.processor)] + second
         + [Entry(ReversalReverted, d.payload, a, d.merchant, wonAt, d.processor)]
  }

  /** A won dispute reinstates exactly what it reversed when nothing else of the invoice stands reversed. */
  lemma RestoredIsTail(ledger: seq<Event>, first: seq<Event>, second: seq<Event>, d: Dispute, at: int, wonAt: int)
    requires OnlyStatements(first) && OnlyStatements(second)
    requires NetReversed(ledger, d.payload.invoiceId) == 0.0 && d.payload.amount > 0.0
    ensures Restored(ledger, first, second, d, at, wonAt) == ledger + DisputeTail(ledger, first, second, d, at, wonAt)
  {
    var a, invoice := AmountReversed(ledger, d.payload), d.payload.invoiceId;
    var disputed := Opened(ledger + first, d, at);
    StatementsKeepTotals(ledger, first);
    StatementsKeepTotals(disputed, second);
    if a == 0.0 {
      assert disputed == ledger + first;
    } else {
      var e := Entry(CaseReversed, d.payload, a, d.merchant, at, d.processor);
      assert disputed == (ledger + first) + [e];
      TotalsOfNext(ledger + first, e, invoice);
      assert NetReversed(disputed + second, invoice) == a > 0.0;
    }
  }

  lemma OppositesCancel(ledger: seq<Event>, e: Event, between: seq<Event>, e': Event, merchant: string, invoice: string)
    requires OwnerOf(e) == OwnerOf(e') && Signed(e) + Signed(e') == 0.0 && OnlyStatements(between)
    ensures OwnNet((ledger + [e]) + between + [e'], merchant, invoice) == OwnNet(ledger, merchant, invoice)
  {
    KeyTotalAppend(ledger, e, OwnerOf, Signed, (merchant, invoice));
    StatementsAddNothing(ledger + [e], between, OwnerOf, Signed, (merchant, invoice));
    KeyTotalAppend((ledger + [e]) + between, e', OwnerOf, Signed, (merchant, invoice));
  }

  /** The tail holds no assignment and leaves every net of the merchant as it was. */
  lemma TailIsNoEvidence(ledger: seq<Event>, first: seq<Event>, second: seq<Event>, d: Dispute, at: int, wonAt: int)
    requires OnlyStatements(first) && OnlyStatements(second)
    ensures var tail := DisputeTail(ledger, first, second, d, at, wonAt);
            && (forall i :: 0 <= i < |tail| ==> tail[i].kind != HoldoutAssigned)
            && forall merchant, invoice :: OwnNet(ledger + tail, merchant, invoice) == OwnNet(ledger, merchant, invoice)
  {
    var a := AmountReversed(ledger, d.payload);
    var tail := DisputeTail(ledger, first, second, d, at, wonAt);
    StatementsKeepTotals(ledger, first);
    if a == 0.0 {
      StatementsKeepTotals(ledger + first, second);
      assert ledger + tail == (ledger + first) + second;
    } else {
      var e := Entry(CaseReversed, d.payload, a, d.merchant, at, d.processor);
      var e' := Entry(ReversalReverted, d.payload, a, d.merchant, wonAt, d.processor);
      var disputed := (ledger + first) + [e];
      StatementsKeepTotals(disputed, second);
      assert ledger + tail == (disputed + second) + [e'];
      forall merchant, invoice ensures OwnNet(ledger + tail, merchant, invoice) == OwnNet(ledger, merchant, invoice) {
        OppositesCancel(ledger + first, e, second, e', merchant, invoice);
      }
    }
  }

  /** Once a dispute is won, the evidence of every merchant is what it was before. */
  lemma WonDisputeRestoresEvidence(ledger: seq<Event>, first: seq<Event>, second: seq<Event>, d: Dispute, at: int,
                                   wonAt: int, merchant: string, period: Period)
    requires OnlyStatements(first) && OnlyStatements(second)
    requires NetReversed(ledger, d.payload.invoiceId) == 0.0 && d.payload.amount > 0.0
    ensures ObservationsOf(Restored(ledger, first, second, d, at, wonAt), merchant, period)
            == ObservationsOf(ledger, merchant, period)
  {
    RestoredIsTail(ledger, first, second, d, at, wonAt);
    TailIsNoEvidence(ledger, first, second, d, at, wonAt);
    SameEvidence(ledger, DisputeTail(ledger, first, second, d, at, wonAt), merchant, period);
  }

  // ----- three runs around a dispute -----

  datatype Runner = Runner(period: Period, config: U.Config, stats: U.Statistics, fraction: string -> real)

  /** These are the bills of a run over this ledger. */
  ghost predicate Bills(run: Runner, ledger: seq<Event>, bills: seq<Bill>) {
    BilledRun(bills, Distinct(ledger, MerchantOf), ledger, run.period, run.config, run.stats, run.fraction)
  }

  /** The dates and bills of a run before the dispute, one while it is open, and one after it is won. */
  datatype ThreeRuns = ThreeRuns(now1: int, now2: int, now3: int, bills1: seq<Bill>, bills2: seq<Bill>,
                                 bills3: seq<Bill>)

  function AfterFirst(ledger: seq<Event>, d: Dispute, r: ThreeRuns): seq<Event> {
    Opened(ledger + StatementsOf(r.bills1, r.now1), d, r.now1)
  }

  function AfterSecond(ledger: seq<Event>, d: Dispute, r: ThreeRuns): seq<Event> {
    Won(AfterFirst(ledger, d, r) + StatementsOf(r.bills2, r.now2), d, r.now2)
  }

  ghost predicate RunAround(ledger: seq<Event>, d: Dispute, run: Runner, r: ThreeRuns) {
    && (forall m :: NotBefore(r.now1, MarkOf(ledger, m).at)) && r.now1 <= r.now2 <= r.now3
    && Bills(run, ledger, r.bills1)
    && Bills(run, AfterFirst(ledger, d, r), r.bills2)
    && Bills(run, AfterSecond(ledger, d, r), r.bills3)
  }

  lemma BillsOnlyState(bills: seq<Bill>, now: int)
    ensures OnlyStatements(StatementsOf(bills, now))
  {
    StatementsAreStatements(bills, now);
  }

  lemma MarksAfterFirst(ledger: seq<Event>, d: Dispute, r: ThreeRuns, m: string)
    requires NotBefore(r.now1, MarkOf(ledger, m).at)
    ensures MarkOf(AfterFirst(ledger, d, r), m) == MarkOf(ledger + StatementsOf(r.bills1, r.now1), m)
    ensures MarkOf(AfterFirst(ledger, d, r), m) ==
            match BillFor(r.bills1, m)
            case None => MarkOf(ledger, m)
            case Some(b) => Mark(Some(r.now1), b.uplift.lowerDollarsCum)
  {
    var stated := ledger + StatementsOf(r.bills1, r.now1);
    RunMovesWatermark(ledger, r.bills1, r.now1, m);
    if AfterFirst(ledger, d, r) != stated {
      var e := AfterFirst(ledger, d, r)[|stated|];
      assert AfterFirst(ledger, d, r) == stated + [e];
      RecordKeepsWatermark(stated, e, m);
    }
  }

  lemma MarksAfterSecond(ledger: seq<Event>, d: Dispute, r: ThreeRuns, m: string)
    requires NotBefore(r.now2, MarkOf(AfterFirst(ledger, d, r), m).at)
    ensures MarkOf(AfterSecond(ledger, d, r), m) ==
            match BillFor(r.bills2, m)
            case None => MarkOf(AfterFirst(ledger, d, r), m)
            case Some(b) => Mark(Some(r.now2), b.uplift.lowerDollarsCum)
  {
    var disputed := AfterFirst(ledger, d, r);
    var stated := disputed + StatementsOf(r.bills2, r.now2);
    RunMovesWatermark(disputed, r.bills2, r.now2, m);
    if AfterSecond(ledger, d, r) != stated {
      var e := AfterSecond(ledger, d, r)[|stated|];
      assert AfterSecond(ledger, d, r) == stated + [e];
      RecordKeepsWatermark(stated, e, m);
    }
  }

  /** The three runs in the terms of a billing history; the dispute's entries are recorded in between. */
  ghost predicate Known(b: Option<Bill>, run: Runner, ledger: seq<Event>, m: string) {
    b.Some? && b.value.merchant == m
    && Supported(b.value, ledger, run.period, run.config, run.stats)
    && b.value.economics == EconomicsFor(b.value.uplift, run.fraction(m))
  }

  lemma BillKnown(run: Runner, ledger: seq<Event>, bills: seq<Bill>, m: string)
    requires Bills(run, ledger, bills) && m in Distinct(ledger, MerchantOf)
    ensures Known(BillFor(bills, m), run, ledger, m)
  {
    var merchants := Distinct(ledger, MerchantOf);
    BilledInOrder(bills, merchants, ledger, run.period, run.config, run.stats, run.fraction);
    BillForMember(bills, m);
    var i :| 0 <= i < |merchants| && merchants[i] == m;
    assert bills[i] in bills;
    BilledAt(bills, merchants, ledger, run.period, run.config, run.stats, run.fraction, BillFor(bills, m).value);
  }

  lemma StillListed(ledger: seq<Event>, longer: seq<Event>, m: string)
    requires ledger <= longer && m in Distinct(ledger, MerchantOf)
    ensures m in Distinct(longer, MerchantOf)
  {
    DistinctIffPresent(ledger, MerchantOf, m);
    DistinctIffPresent(longer, MerchantOf, m);
    var x :| x in ledger && MerchantOf(x) == m;
    assert x in longer;
  }

  /** The bills of one merchant in the three runs. */
  ghost predicate BillsOf(ledger: seq<Event>, d: Dispute, run: Runner, r: ThreeRuns, m: string, b1: Bill, b2: Bill,
                          b3: Bill) {
    && BillFor(r.bills1, m) == Some(b1) && BillFor(r.bills2, m) == Some(b2) && BillFor(r.bills3, m) == Some(b3)
    && Known(Some(b1), run, ledger, m)
    && Known(Some(b2), run, AfterFirst(ledger, d, r), m)
    && Known(Some(b3), run, AfterSecond(ledger, d, r), m)
    && Watermark(AfterFirst(ledger, d, r), m) == b1.uplift.lowerDollarsCum
    && Watermark(AfterSecond(ledger, d, r), m) == b2.uplift.lowerDollarsCum
  }

  /** Each run prices over the bound the run before it stated. */
  lemma RunsFollow(ledger: seq<Event>, d: Dispute, run: Runner, r: ThreeRuns, m: string)
    returns (b1: Bill, b2: Bill, b3: Bill)
    requires RunAround(ledger, d, run, r) && m in Distinct(ledger, MerchantOf)
    ensures BillsOf(ledger, d, run, r, m, b1, b2, b3)
  {
    StillListed(ledger, AfterFirst(ledger, d, r), m);
    StillListed(ledger, AfterSecond(ledger, d, r), m);
    BillKnown(run, ledger, r.bills1, m);
    BillKnown(run, AfterFirst(ledger, d, r), r.bills2, m);
    BillKnown(run, AfterSecond(ledger, d, r), r.bills3, m);
    b1, b2, b3 := BillFor(r.bills1, m).value, BillFor(r.bills2, m).value, BillFor(r.bills3, m).value;
    MarksAfterFirst(ledger, d, r, m);
    MarksAfterSecond(ledger, d, r, m);
  }

  lemma KnownIsPriced(run: Runner, ledger: seq<Event>, m: string, b: Bill)
    requires Known(Some(b), run, ledger, m)
    ensures Priced(b, Watermark(ledger, m), run.config.feeRate)
  {
    SupportedIsPriced(b, ledger, run.period, run.config, run.stats, run.fraction(m));
  }

  lemma SameEvidenceSameBound(run: Runner, ledger: seq<Event>, later: seq<Event>, m: string, b: Bill, c: Bill)
    requires Known(Some(b), run, ledger, m) && Known(Some(c), run, later, m)
    requires ObservationsOf(later, m, run.period) == ObservationsOf(ledger, m, run.period)
    ensures c.uplift.lowerDollarsCum == b.uplift.lowerDollarsCum && c.uplift.billable == b.uplift.billable
  {
    U.BoundIsDetermined(U.Prepared(ObservationsOf(ledger, m, run.period), run.config), run.config, run.stats,
                        b.uplift, c.uplift, Watermark(ledger, m), Watermark(later, m));
  }

  function Collected(b: Bill): int { b.economics.netBilled + b.economics.credit }

  /** The bound stated by b, lost to b2 and back with b3: the fall collects nothing, the rise its whole fee. */
  predicate FallBilledAgain(rate: real, bound: int, b2: Bill, b3: Bill) {
    var fall := bound - b2.uplift.lowerDollarsCum;
    && b3.uplift.lowerDollarsCum == bound
    && (fall > 0 ==> b2.uplift.fee == Round(rate * (-fall) as real) && Collected(b2) == 0)
    && (fall > 0 && b3.uplift.billable ==> Collected(b3) == Round(rate * fall as real))
  }

  lemma FallAndRise(rate: real, bound: int, b2: Bill, b3: Bill)
    requires Priced(b2, bound, rate) && Priced(b3, b2.uplift.lowerDollarsCum, rate) && rate >= 0.0
    requires b3.uplift.lowerDollarsCum == bound
    ensures FallBilledAgain(rate, bound, b2, b3)
  {
    var fall := bound - b2.uplift.lowerDollarsCum;
    U.ProductSign(rate, -fall);
    U.ProductSign(rate, fall);
  }

  /**
   * Whatever the ledger, the statistics and the dispute, for three runs in one period: the run after the dispute is
   * won proves the bound of the run before it again, with the same gates. If the open dispute had taken the bound
   * down, the fall was billed as a negative fee that is paid out to nobody; and if the gates are open, the rise is
   * billed once more, so the two runs collect the fee on the fall a second time.
   */
  lemma RegainedBoundBilledAgain(ledger: seq<Event>, d: Dispute, run: Runner, r: ThreeRuns, m: string, b1: Bill,
                                 b2: Bill, b3: Bill)
    requires RunAround(ledger, d, run, r) && BillsOf(ledger, d, run, r, m, b1, b2, b3)
    requires NetReversed(ledger, d.payload.invoiceId) == 0.0 && d.payload.amount > 0.0
    requires run.config.feeRate >= 0.0
    ensures b3.uplift.billable == b1.uplift.billable
    ensures FallBilledAgain(run.config.feeRate, b1.uplift.lowerDollarsCum, b2, b3)
  {
    assert b3.uplift.lowerDollarsCum == b1.uplift.lowerDollarsCum && b3.uplift.billable == b1.uplift.billable by {
      BillsOnlyState(r.bills1, r.now1);
      BillsOnlyState(r.bills2, r.now2);
      WonDisputeRestoresEvidence(ledger, StatementsOf(r.bills1, r.now1), StatementsOf(r.bills2, r.now2), d, r.now1,
                                 r.now2, m, run.period);
      SameEvidenceSameBound(run, ledger, AfterSecond(ledger, d, r), m, b1, b3);
    }
    KnownIsPriced(run, AfterFirst(ledger, d, r), m, b2);
    KnownIsPriced(run, AfterSecond(ledger, d, r), m, b3);
    FallAndRise(run.config.feeRate, b1.uplift.lowerDollarsCum, b2, b3);
  }

  // ----- the three runs as a billing history -----

  /** What a handler appended, if anything. */
  function RecordedSince(before: seq<Event>, after: seq<Event>): seq<Happening> {
    if |after| > |before| then [Recorded(after[|after| - 1])] else []
  }

  function FirstPart(ledger: seq<Event>, d: Dispute, r: ThreeRuns): seq<Happening> {
    [Ran(r.now1, r.bills1)] + RecordedSince(ledger + StatementsOf(r.bills1, r.now1), AfterFirst(ledger, d, r))
  }

  function SecondPart(ledger: seq<Event>, d: Dispute, r: ThreeRuns): seq<Happening> {
    FirstPart(ledger, d, r) + [Ran(r.now2, r.bills2)]
    + RecordedSince(AfterFirst(ledger, d, r) + StatementsOf(r.bills2, r.now2), AfterSecond(ledger, d, r))
  }

  function HistoryOf(ledger: seq<Event>, d: Dispute, r: ThreeRuns): seq<Happening> {
    SecondPart(ledger, d, r) + [Ran(r.now3, r.bills3)]
  }

  /** An account with the merchant's bill of one more run. */
  function Billed(a: Account, bills: seq<Bill>, m: string): Account {
    match BillFor(bills, m)
    case None => a
    case Some(b) => Add(a, b)
  }

  /** The ledger after a handler that records at most one entry, and no statement. */
  predicate AddsEntry(before: seq<Event>, after: seq<Event>) {
    || after == before
    || (|after| == |before| + 1 && after[..|before|] == before && after[|before|].kind != UpliftStatement)
  }

  /** What a history comes to: it can happen, leaves this ledger, and puts these bills on the merchant's account. */
  ghost predicate ComesTo(start: seq<Event>, hs: seq<Happening>, rate: real, m: string, ledger: seq<Event>,
                          a: Account) {
    Feasible(start, hs, rate) && LedgerAfter(start, hs) == ledger && AccountOf(hs, m) == a
  }

  lemma RunExtends(start: seq<Event>, hs: seq<Happening>, run: Runner, now: int, bills: seq<Bill>, m: string,
                   ledger: seq<Event>, a: Account, next: seq<Happening>)
    requires ComesTo(start, hs, run.config.feeRate, m, ledger, a) && Bills(run, ledger, bills)
    requires forall x :: NotBefore(now, MarkOf(ledger, x).at)
    requires next == hs + [Ran(now, bills)]
    ensures ComesTo(start, next, run.config.feeRate, m, ledger + StatementsOf(bills, now), Billed(a, bills, m))
  {
    RunIsPossible(ledger, now, bills, run.period, run.config, run.stats, run.fraction);
    Extended(start, hs, Ran(now, bills), run.config.feeRate, m);
  }

  lemma EntryExtends(start: seq<Event>, hs: seq<Happening>, rate: real, m: string, before: seq<Event>,
                     after: seq<Event>, a: Account, next: seq<Happening>)
    requires ComesTo(start, hs, rate, m, before, a) && AddsEntry(before, after)
    requires next == hs + RecordedSince(before, after)
    ensures ComesTo(start, next, rate, m, after, a)
  {
    if after == before {
      assert next == hs;
    } else {
      var e := after[|before|];
      assert after == before + [e] && next == hs + [Recorded(e)];
      Extended(start, hs, Recorded(e), rate, m);
    }
  }

  lemma HandlersRecord(ledger: seq<Event>, d: Dispute, at: int)
    ensures AddsEntry(ledger, Opened(ledger, d, at)) && AddsEntry(ledger, Won(ledger, d, at))
  {
  }

  /** The history until the dispute is open. */
  lemma HistoryUntilOpened(ledger: seq<Event>, d: Dispute, run: Runner, r: ThreeRuns, m: string)
    requires RunAround(ledger, d, run, r)
    ensures ComesTo(ledger, FirstPart(ledger, d, r), run.config.feeRate, m, AfterFirst(ledger, d, r),
                    Billed(NOTHING, r.bills1, m))
  {
    var none: seq<Happening> := [];
    var ran := [Ran(r.now1, r.bills1)];
    assert ran == none + [Ran(r.now1, r.bills1)];
    RunExtends(ledger, none, run, r.now1, r.bills1, m, ledger, NOTHING, ran);
    HandlersRecord(ledger + StatementsOf(r.bills1, r.now1), d, r.now1);
    EntryExtends(ledger, ran, run.config.feeRate, m, ledger + StatementsOf(r.bills1, r.now1), AfterFirst(ledger, d, r),
                 Billed(NOTHING, r.bills1, m), FirstPart(ledger, d, r));
  }

  /** The history until the dispute is won. */
  lemma HistoryUntilWon(ledger: seq<Event>, d: Dispute, run: Runner, r: ThreeRuns, m: string)
    requires RunAround(ledger, d, run, r)
    ensures ComesTo(ledger, SecondPart(ledger, d, r), run.config.feeRate, m, AfterSecond(ledger, d, r),
                    Billed(Billed(NOTHING, r.bills1, m), r.bills2, m))
  {
    var first, a := AfterFirst(ledger, d, r), Billed(NOTHING, r.bills1, m);
    var stated, ran := first + StatementsOf(r.bills2, r.now2), FirstPart(ledger, d, r) + [Ran(r.now2, r.bills2)];
    HistoryUntilOpened(ledger, d, run, r, m);
    forall x ensures NotBefore(r.now2, MarkOf(first, x).at) { MarksAfterFirst(ledger, d, r, x); }
    RunExtends(ledger, FirstPart(ledger, d, r), run, r.now2, r.bills2, m, first, a, ran);
    HandlersRecord(stated, d, r.now2);
    EntryExtends(ledger, ran, run.config.feeRate, m, stated, AfterSecond(ledger, d, r), Billed(a, r.bills2, m),
                 SecondPart(ledger, d, r));
  }

  /** The three runs and the dispute between them are a feasible history, with the merchant's bills on its account. */
  lemma DisputeIsHistory(ledger: seq<Event>, d: Dispute, run: Runner, r: ThreeRuns, m: string)
    requires RunAround(ledger, d, run, r)
    ensures ComesTo(ledger, HistoryOf(ledger, d, r), run.config.feeRate, m,
                    AfterSecond(ledger, d, r) + StatementsOf(r.bills3, r.now3),
                    Billed(Billed(Billed(NOTHING, r.bills1, m), r.bills2, m), r.bills3, m))
  {
    var second := AfterSecond(ledger, d, r);
    HistoryUntilWon(ledger, d, run, r, m);
    forall x ensures NotBefore(r.now3, MarkOf(second, x).at) {
      MarksAfterFirst(ledger, d, r, x);
      MarksAfterSecond(ledger, d, r, x);
    }
    RunExtends(ledger, SecondPart(ledger, d, r), run, r.now3, r.bills3, m, second,
               Billed(Billed(NOTHING, r.bills1, m), r.bills2, m), HistoryOf(ledger, d, r));
  }

  /** The history ends at the bound of the last run, and its account holds the three bills. */
  lemma DisputeHistoryEnds(ledger: seq<Event>, d: Dispute, run: Runner, r: ThreeRuns, m: string, b1: Bill, b2: Bill,
                           b3: Bill)
    requires RunAround(ledger, d, run, r) && BillsOf(ledger, d, run, r, m, b1, b2, b3)
    ensures var hs := HistoryOf(ledger, d, r);
            && Feasible(ledger, hs, run.config.feeRate)
            && Watermark(LedgerAfter(ledger, hs), m) == b3.uplift.lowerDollarsCum
            && AccountOf(hs, m) == Add(Add(Add(NOTHING, b1), b2), b3)
  {
    DisputeIsHistory(ledger, d, run, r, m);
    MarksAfterFirst(ledger, d, r, m);
    MarksAfterSecond(ledger, d, r, m);
    RunMovesWatermark(AfterSecond(ledger, d, r), r.bills3, r.now3, m);
  }
}
