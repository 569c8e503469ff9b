/**
 * Two runs over one month's evidence. The first is gated and states the proven bound all the same; the second has its
 * gates open, proves the same bound, and bills nothing: the whole lift is forfeited.
 */
module ForfeitExample {
  import opened BillingHistory
  import opened BillingRun
  import opened DisputedBounds
  import opened FourInvoices
  import opened HoldoutEconomics
  import opened Observations
  import opened RecoveryEvents
  import opened Wrappers
  import U = Uplift

  /** One held-out customer more than the ledger has. */
  const STRICT: U.Config := CONFIG.(minControlClusters := 3)

  function Strict(run: Runner): Runner { run.(config := STRICT) }

  datatype TwoRuns = TwoRuns(now1: int, now2: int, bills1: seq<Bill>, bills2: seq<Bill>)

  function AfterGated(r: TwoRuns): seq<Event> { BASE + StatementsOf(r.bills1, r.now1) }

  ghost predicate GatedThenOpen(run: Runner, r: TwoRuns) {
    r.now1 <= r.now2 && Bills(Strict(run), BASE, r.bills1) && Bills(run, AfterGated(r), r.bills2)
  }

  /** The two configurations differ in a gate only. */
  lemma StrictEstimates(stats: U.Statistics, u: U.BillableUplift)
    requires U.Estimates(Four(5000.0), STRICT, stats, u)
    ensures U.Estimates(Four(5000.0), CONFIG, stats, u)
  {
    assert U.Key(Four(5000.0), STRICT) == U.Key(Four(5000.0), CONFIG);
    assert U.LineAt(Four(5000.0), STRICT) == U.LineAt(Four(5000.0), CONFIG);
  }

  lemma TooFewControls(stats: U.Statistics, prior: int, u: U.BillableUplift)
    requires U.Prices(STRICT, stats, prior, u) && u.controlClusters == 2
    ensures !u.billable
  {
    assert U.Fails(U.TooFewControlCustomers, u, STRICT);
  }

  lemma GatedBill(stats: U.Statistics, prior: int, u: U.BillableUplift)
    requires U.Estimates(Four(5000.0), CONFIG, stats, u) && U.Prices(STRICT, stats, prior, u) && Sound(stats)
    ensures 9790 <= u.lowerDollarsCum <= 9990 && !u.billable
  {
    EstimateOfFour(5000.0, 5.0, stats, u);
    ProvenBound(STRICT, stats, prior, u);
    TooFewControls(stats, prior, u);
  }

  lemma ObservationsAfterGated(r: TwoRuns)
    ensures ObservationsOf(AfterGated(r), SHOP, PERIOD) == Four(5000.0)
  {
    ObservationsOfBase();
    StatementsAreStatements(r.bills1, r.now1);
    StatementsAreNotEvidence(BASE, StatementsOf(r.bills1, r.now1), SHOP, PERIOD);
  }

  /** The shop's bills: a gated one over a watermark of zero, and one over the bound it stated. */
  lemma BillsOfTwo(run: Runner, r: TwoRuns) returns (b1: Bill, b2: Bill)
    requires ExampleRunner(run) && GatedThenOpen(run, r)
    ensures BillFor(r.bills1, SHOP) == Some(b1) && BillFor(r.bills2, SHOP) == Some(b2)
    ensures Known(Some(b1), Strict(run), BASE, SHOP) && Known(Some(b2), run, AfterGated(r), SHOP)
    ensures Watermark(AfterGated(r), SHOP) == b1.uplift.lowerDollarsCum
  {
    ShopListed();
    StillListed(BASE, AfterGated(r), SHOP);
    BillKnown(Strict(run), BASE, r.bills1, SHOP);
    BillKnown(run, AfterGated(r), r.bills2, SHOP);
    b1, b2 := BillFor(r.bills1, SHOP).value, BillFor(r.bills2, SHOP).value;
    RunMovesWatermark(BASE, r.bills1, r.now1, SHOP);
  }

  /** What the two bills say: proven and gated, then proven alike with the gates open. */
  predicate ProvenTwice(b1: Bill, b2: Bill) {
    && 9790 <= b1.uplift.lowerDollarsCum <= 9990 && b2.uplift.lowerDollarsCum == b1.uplift.lowerDollarsCum
    && !b1.uplift.billable && b2.uplift.billable
  }

  lemma BoundsOfTwo(run: Runner, r: TwoRuns, b1: Bill, b2: Bill)
    requires ExampleRunner(run) && Known(Some(b1), Strict(run), BASE, SHOP) && Known(Some(b2), run, AfterGated(r), SHOP)
    ensures ProvenTwice(b1, b2)
  {
    ObservationsOfBase();
    ObservationsAfterGated(r);
    var first, second := Watermark(BASE, SHOP), Watermark(AfterGated(r), SHOP);
    StrictEstimates(run.stats, b1.uplift);
    GatedBill(run.stats, first, b1.uplift);
    ProvenBill(run.stats, second, b2.uplift);
    U.SameEstimate(Four(5000.0), CONFIG, run.stats, b1.uplift, b2.uplift);
    U.BoundIgnoresGates(STRICT, run.stats, first, b1.uplift);
    U.BoundIgnoresGates(CONFIG, run.stats, second, b2.uplift);
  }

  lemma NothingCollected(run: Runner, ledger: seq<Event>, b: Bill)
    requires run.fraction(SHOP) == 0.02 && Known(Some(b), run, ledger, SHOP) && b.uplift.fee == 0
    ensures b.economics.netBilled == 0
  {
    NetSplitsFee(b.uplift.fee, b.uplift.deltaPer, b.uplift.treatedInvoices, 0.02);
  }

  lemma GatedAddsForfeit(run: Runner, b: Bill)
    requires ExampleRunner(run) && Known(Some(b), Strict(run), BASE, SHOP) && Watermark(BASE, SHOP) == 0
    requires b.uplift.lowerDollarsCum >= 9790 && !b.uplift.billable
    ensures b.uplift.fee == 0 && b.economics.netBilled == 0 && Forfeit(b) == b.uplift.lowerDollarsCum
  {
    KnownIsPriced(Strict(run), BASE, SHOP, b);
    NothingCollected(Strict(run), BASE, b);
  }

  lemma OpenBillsNothing(run: Runner, ledger: seq<Event>, b: Bill)
    requires ExampleRunner(run) && Known(Some(b), run, ledger, SHOP) && b.uplift.billable
    requires Watermark(ledger, SHOP) == b.uplift.lowerDollarsCum
    ensures b.uplift.fee == 0 && b.economics.netBilled == 0 && Forfeit(b) == 0
  {
    KnownIsPriced(run, ledger, SHOP, b);
    NothingCollected(run, ledger, b);
  }

  function HistoryOfTwo(r: TwoRuns): seq<Happening> { [Ran(r.now1, r.bills1), Ran(r.now2, r.bills2)] }

  lemma TwoRunsAreHistory(run: Runner, r: TwoRuns, b1: Bill, b2: Bill)
    requires ExampleRunner(run) && GatedThenOpen(run, r)
    requires BillFor(r.bills1, SHOP) == Some(b1) && BillFor(r.bills2, SHOP) == Some(b2)
    ensures ComesTo(BASE, HistoryOfTwo(r), 0.12, SHOP, AfterGated(r) + StatementsOf(r.bills2, r.now2),
                    Add(Add(NOTHING, b1), b2))
    ensures Watermark(AfterGated(r) + StatementsOf(r.bills2, r.now2), SHOP) == b2.uplift.lowerDollarsCum
  {
    var none: seq<Happening> := [];
    var ran := [Ran(r.now1, r.bills1)];
    ShopListed();
    RunExtends(BASE, none, Strict(run), r.now1, r.bills1, SHOP, BASE, NOTHING, ran);
    forall m ensures NotBefore(r.now2, MarkOf(AfterGated(r), m).at) { RunMovesWatermark(BASE, r.bills1, r.now1, m); }
    RunExtends(BASE, ran, run, r.now2, r.bills2, SHOP, AfterGated(r), Add(NOTHING, b1), HistoryOfTwo(r));
    RunMovesWatermark(AfterGated(r), r.bills2, r.now2, SHOP);
  }

  /** The history ends at a bound of at least 9790, proven over a watermark of zero, and has billed none of it. */
  ghost predicate WhollyForfeited(start: seq<Event>, hs: seq<Happening>) {
    var bound, a := Watermark(LedgerAfter(start, hs), SHOP), AccountOf(hs, SHOP);
    && Feasible(start, hs, 0.12) && Watermark(start, SHOP) == 0 && 9790 <= bound <= 9990
    && a.runs == 2 && a.fees == 0 && a.net == 0 && a.forfeited == bound
  }

  lemma ForfeitedFrom(start: seq<Event>, hs: seq<Happening>, ledger: seq<Event>, b1: Bill, b2: Bill)
    requires ComesTo(start, hs, 0.12, SHOP, ledger, Add(Add(NOTHING, b1), b2)) && Watermark(start, SHOP) == 0
    requires ProvenTwice(b1, b2) && Watermark(ledger, SHOP) == b2.uplift.lowerDollarsCum
    requires b1.uplift.fee == b2.uplift.fee == b1.economics.netBilled == b2.economics.netBilled == 0
    requires Forfeit(b1) == b1.uplift.lowerDollarsCum && Forfeit(b2) == 0
    ensures WhollyForfeited(start, hs)
  {
  }

  /**
   * Every two such runs. The gates are open when the second one proves the bound again, so the lift is billable there,
   * but the gated run has moved the watermark over it: the increment is zero and the fee on the lift is never billed.
   */
  lemma GatedLiftIsForfeited(run: Runner, r: TwoRuns)
    requires ExampleRunner(run) && GatedThenOpen(run, r)
    ensures WhollyForfeited(BASE, HistoryOfTwo(r))
    ensures BillFor(r.bills2, SHOP).Some? && BillFor(r.bills2, SHOP).value.uplift.billable
  {
    ShopListed();
    var b1, b2 := BillsOfTwo(run, r);
    BoundsOfTwo(run, r, b1, b2);
    GatedAddsForfeit(run, b1);
    OpenBillsNothing(run, AfterGated(r), b2);
    TwoRunsAreHistory(run, r, b1, b2);
    ForfeitedFrom(BASE, HistoryOfTwo(r), AfterGated(r) + StatementsOf(r.bills2, r.now2), b1, b2);
  }

  /** Such runs exist: the runner under the strict and the given configuration, on the first two days of February. */
  method RunGatedThenOpen(run: Runner) returns (r: TwoRuns)
    requires ExampleRunner(run)
    ensures GatedThenOpen(run, r)
  {
    assert forall e :: !U.Misconfigured(CONFIG, e) && !U.Misconfigured(STRICT, e);
    var bills1, gated := RunMonth(Strict(run), BASE, FIRST_DAY);
    var bills2, open := RunMonth(run, gated, SECOND_DAY);
    r := TwoRuns(FIRST_DAY, SECOND_DAY, bills1, bills2);
  }
}
