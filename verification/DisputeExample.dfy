/** A ledger of four invoices on which a chargeback, and then winning the dispute, bills one proven bound twice. */
module DisputeExample {
  import opened BillingHistory
  import opened BillingRun
  import opened DisputedBounds
  import opened FourInvoices
  import opened HoldoutEconomics
  import opened Observations
  import opened RealArithmetic
  import opened RecoveryEvents
  import opened Reversals
  import opened Sums
  import opened Wrappers
  import U = Uplift

  const DISPUTE: Dispute := Dispute(ReversalPayload("i3", 5000.0, "USD"), SHOP, "stripe")

  lemma NetsOfOpened(statements: seq<Event>, at: int)
    requires OnlyStatements(statements)
    ensures var ledger := BASE + statements;
            && Opened(ledger, DISPUTE, at)
              == ledger + [Entry(CaseReversed, DISPUTE.payload, 5000.0, SHOP, at, "stripe")]
            && OwnNet(Opened(ledger, DISPUTE, at), SHOP, "i4") == 4990.0
            && forall invoice :: invoice != "i4" ==> OwnNet(Opened(ledger, DISPUTE, at), SHOP, invoice) == 0.0
  {
    var ledger := BASE + statements;
    NetsOfBase();
    FirstRecovered();
    StatementsKeepTotals(BASE, statements);
    var e := Entry(CaseReversed, DISPUTE.payload, 5000.0, SHOP, at, "stripe");
    assert Opened(ledger, DISPUTE, at) == ledger + [e];
    forall invoice ensures OwnNet(ledger + [e], SHOP, invoice) == if invoice == "i4" then 4990.0 else 0.0 {
      assert OwnNet(ledger, SHOP, invoice) == OwnNet(BASE, SHOP, invoice);
      KeyTotalAppend(ledger, e, OwnerOf, Signed, (SHOP, invoice));
    }
  }

  lemma ObservationsOfOpened(statements: seq<Event>, at: int)
    requires OnlyStatements(statements)
    ensures ObservationsOf(Opened(BASE + statements, DISPUTE, at), SHOP, PERIOD) == Four(0.0)
  {
    var ledger := Opened(BASE + statements, DISPUTE, at);
    NetsOfOpened(statements, at);
    var tail := RECOVERIES + statements + [Entry(CaseReversed, DISPUTE.payload, 5000.0, SHOP, at, "stripe")];
    assert ledger == ASSIGNMENTS + tail;
    NoAssignmentNoObservation(ASSIGNMENTS, tail, ledger, SHOP, PERIOD);
    FourAssigned(ledger, 0.0);
  }

  // ----- what the three runs collect -----

  /** With two treated invoices, a lift of 4995 and 2% held out, the holdout credit is 204. */
  lemma CreditOfProven(fee: int)
    requires fee >= 204
    ensures EconomicsOf(fee, 4995.0, 2, 0.02).netBilled == fee - 204
  {
    var h := 0.02 / (1.0 - 0.02);
    assert h * 49.0 == 1.0;
    assert HeldOut(2, 0.02) == 2.0 * h;
    assert Round(4995.0 * (2.0 * h)) == 204;
  }

  lemma ProvenFee(bound: int)
    requires 9790 <= bound <= 9990
    ensures U.FeeFor(0.12, true, bound) == Round(0.12 * bound as real) >= 1174
    ensures (2 * (Round(0.12 * bound as real) - 204)) as real > 0.12 * bound as real + 1.5
  {
  }

  /** The bounds of the three runs: proven, lost, and the first one again. */
  lemma ExampleBounds(run: Runner, r: ThreeRuns, b1: Bill, b2: Bill, b3: Bill)
    requires ExampleRunner(run) && RunAround(BASE, DISPUTE, run, r) && BillsOf(BASE, DISPUTE, run, r, SHOP, b1, b2, b3)
    ensures 9790 <= b1.uplift.lowerDollarsCum <= 9990 && b2.uplift.lowerDollarsCum == 0
    ensures b3.uplift.lowerDollarsCum == b1.uplift.lowerDollarsCum && b1.uplift.billable && b3.uplift.billable
    ensures b1.uplift.deltaPer == b3.uplift.deltaPer == 4995.0
            && b1.uplift.treatedInvoices == b3.uplift.treatedInvoices == 2
  {
    ObservationsOfBase();
    ProvenBill(run.stats, Watermark(BASE, SHOP), b1.uplift);
    BillsOnlyState(r.bills1, r.now1);
    BillsOnlyState(r.bills2, r.now2);
    ObservationsOfOpened(StatementsOf(r.bills1, r.now1), r.now1);
    LostBill(run.stats, Watermark(AfterFirst(BASE, DISPUTE, r), SHOP), b2.uplift);
    FirstRecovered();
    WonDisputeRestoresEvidence(BASE, StatementsOf(r.bills1, r.now1), StatementsOf(r.bills2, r.now2), DISPUTE, r.now1,
                               r.now2, SHOP, PERIOD);
    ProvenBill(run.stats, Watermark(AfterSecond(BASE, DISPUTE, r), SHOP), b3.uplift);
    SameEvidenceSameBound(run, BASE, AfterSecond(BASE, DISPUTE, r), SHOP, b1, b3);
  }

  /** A proven bill over a watermark of zero collects its fee less the credit. */
  lemma ProvenBillNets(run: Runner, ledger: seq<Event>, b: Bill)
    requires ExampleRunner(run) && Known(Some(b), run, ledger, SHOP) && Watermark(ledger, SHOP) == 0
    requires 9790 <= b.uplift.lowerDollarsCum <= 9990 && b.uplift.billable
    requires b.uplift.deltaPer == 4995.0 && b.uplift.treatedInvoices == 2
    ensures b.economics.netBilled == Round(0.12 * b.uplift.lowerDollarsCum as real) - 204
  {
    KnownIsPriced(run, ledger, SHOP, b);
    ProvenFee(b.uplift.lowerDollarsCum);
    CreditOfProven(b.uplift.fee);
  }

  lemma LostBillNets(run: Runner, ledger: seq<Event>, b: Bill, bound: int)
    requires ExampleRunner(run) && Known(Some(b), run, ledger, SHOP) && Watermark(ledger, SHOP) == bound >= 9790
    requires b.uplift.lowerDollarsCum == 0
    ensures b.economics.netBilled == 0
  {
    KnownIsPriced(run, ledger, SHOP, b);
    NegativeFee(0.12, b.uplift.billable, b.uplift.billableIncrement);
    NetSplitsFee(b.uplift.fee, b.uplift.deltaPer, b.uplift.treatedInvoices, 0.02);
  }

  predicate TwiceNet(a: Account, bound: int) {
    a.runs == 3 && a.net == 2 * (Round(0.12 * bound as real) - 204) && !AtMost(a.net, 0.12, bound, a.runs)
  }

  lemma ThreeNets(b1: Bill, b2: Bill, b3: Bill, bound: int)
    requires 9790 <= bound <= 9990 && b2.economics.netBilled == 0
    requires b1.economics.netBilled == b3.economics.netBilled == Round(0.12 * bound as real) - 204
    ensures TwiceNet(Add(Add(Add(NOTHING, b1), b2), b3), bound)
  {
    ProvenFee(bound);
  }

  /** The bill of every run: the net fee on the bound, nothing, and the net fee on the bound again. */
  lemma ExampleNets(run: Runner, r: ThreeRuns, b1: Bill, b2: Bill, b3: Bill)
    requires ExampleRunner(run) && RunAround(BASE, DISPUTE, run, r) && BillsOf(BASE, DISPUTE, run, r, SHOP, b1, b2, b3)
    ensures 9790 <= b3.uplift.lowerDollarsCum <= 9990 && b2.economics.netBilled == 0
    ensures b1.economics.netBilled == b3.economics.netBilled == Round(0.12 * b3.uplift.lowerDollarsCum as real) - 204
  {
    ShopListed();
    ExampleBounds(run, r, b1, b2, b3);
    ProvenBillNets(run, BASE, b1);
    LostBillNets(run, AfterFirst(BASE, DISPUTE, r), b2, b1.uplift.lowerDollarsCum);
    ProvenBillNets(run, AfterSecond(BASE, DISPUTE, r), b3);
  }

  /** Three runs of a feasible history collect twice the net fee on the bound it ends at, beyond all rounding. */
  ghost predicate BilledTwice(start: seq<Event>, hs: seq<Happening>) {
    var bound, a := Watermark(LedgerAfter(start, hs), SHOP), AccountOf(hs, SHOP);
    && Feasible(start, hs, 0.12) && Watermark(start, SHOP) == 0 && 9790 <= bound <= 9990
    && TwiceNet(a, bound)
  }

  lemma TwiceFrom(start: seq<Event>, hs: seq<Happening>, a: Account, bound: int)
    requires Feasible(start, hs, 0.12) && Watermark(start, SHOP) == 0
    requires Watermark(LedgerAfter(start, hs), SHOP) == bound && 9790 <= bound <= 9990
    requires AccountOf(hs, SHOP) == a && TwiceNet(a, bound)
    ensures BilledTwice(start, hs)
  {
  }

  /**
   * Every three runs around this dispute: a bound of at least 9790 proven, lost while the dispute is open and proven
   * again once it is won. The history is feasible, ends at the bound it first proved, and has collected twice the net
   * fee on it: more than the rate times the bound allows, rounding of all three runs included.
   */
  lemma LostAndRegainedIsBilledTwice(run: Runner, r: ThreeRuns)
    requires ExampleRunner(run) && RunAround(BASE, DISPUTE, run, r)
    ensures BilledTwice(BASE, HistoryOf(BASE, DISPUTE, r))
  {
    ShopListed();
    var b1, b2, b3 := RunsFollow(BASE, DISPUTE, run, r, SHOP);
    ExampleNets(run, r, b1, b2, b3);
    ThreeNets(b1, b2, b3, b3.uplift.lowerDollarsCum);
    DisputeHistoryEnds(BASE, DISPUTE, run, r, SHOP, b1, b2, b3);
    TwiceFrom(BASE, HistoryOf(BASE, DISPUTE, r), Add(Add(Add(NOTHING, b1), b2), b3), b3.uplift.lowerDollarsCum);
  }

  /** Such runs exist: the runner, on the first three days of February. */
  method RunAroundDispute(run: Runner) returns (r: ThreeRuns)
    requires ExampleRunner(run)
    ensures RunAround(BASE, DISPUTE, run, r)
  {
    ShopListed();
    assert forall e :: !U.Misconfigured(CONFIG, e);
    var bills1, first := RunMonth(run, BASE, FIRST_DAY);
    var bills2, second := RunMonth(run, Opened(first, DISPUTE, FIRST_DAY), SECOND_DAY);
    var bills3, third := RunMonth(run, Won(second, DISPUTE, SECOND_DAY), THIRD_DAY);
    r := ThreeRuns(FIRST_DAY, SECOND_DAY, THIRD_DAY, bills1, bills2, bills3);
  }
}
