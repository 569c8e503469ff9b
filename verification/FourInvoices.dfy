/** A ledger of four invoices, two of them held out: its observations, and the bound and the bill they support. */
module FourInvoices {
  import opened BillingHistory
  import opened BillingRun
  import opened ClusterVariance
  import opened DisputedBounds
  import opened Observations
  import opened PostStratification
  import opened RealArithmetic
  import opened RecoveryEvents
  import opened Reversals
  import opened Sums
  import opened Wrappers
  import Cuped
  import U = Uplift

  const SHOP: string := "m"

  function Assigned(invoice: string, bucket: string, customer: string): Event {
    Event(SHOP, HoldoutAssigned, Some(0), invoice, 100.0, "USD", "", bucket, customer, "s", None)
  }

  function Recovered(invoice: string, amount: real): Event {
    Event(SHOP, CaseRecovered, Some(0), invoice, amount, "USD", "stripe", "", "", "", None)
  }

  /** Two customers held out and two treated, all in one stratum. */
  const ASSIGNMENTS: seq<Event> :=
    [Assigned("i1", "control", "c1"), Assigned("i2", "control", "c2"),
     Assigned("i3", "treatment", "t1"), Assigned("i4", "treatment", "t2")]

  const RECOVERIES: seq<Event> := [Recovered("i3", 5000.0), Recovered("i4", 4990.0)]

  /** Only the treated invoices are recovered. */
  const BASE: seq<Event> := ASSIGNMENTS + RECOVERIES

  /** January 1970, the month that every run in February 1970 bills. */
  const PERIOD: Period := Period(0, 2_678_400_000)

  const FIRST_DAY: int := 2_678_400_001
  const SECOND_DAY: int := 2_764_800_000
  const THIRD_DAY: int := 2_851_200_000

  const CONFIG: U.Config := U.Config(0.05, 4_000_000.0, 0.12, false, 1, 2, 2)

  /**
   * What is needed of the foreign numerics. At this alpha and tau2 the half-width is about 21 at a standard error of 5
   * and about 10161 at one of 2495; with as many customers in either arm the sample ratio holds.
   */
  ghost predicate Sound(stats: U.Statistics) {
    && Cuped.IsSquareRoot(stats.root) && !stats.srmBreached(2, 2)
    && 0.0 <= stats.halfWidth(5.0) <= 100.0 && stats.halfWidth(2495.0) >= 2495.0
  }

  function Observed(treated: bool, customer: string, outcome: real): Observation {
    Observation(treated, customer, "s", outcome, 100.0)
  }

  /** The observations when the first treated invoice holds this much. */
  function Four(first: real): seq<Observation> {
    [Observed(false, "c1", 0.0), Observed(false, "c2", 0.0), Observed(true, "t1", first), Observed(true, "t2", 4990.0)]
  }

  // ----- the observations of the ledger -----

  lemma ObservedNext(entries: seq<Event>, invoice: string, bucket: string, customer: string, ledger: seq<Event>)
    requires invoice != "" && customer != "" && (bucket == "treatment" || bucket == "control")
    ensures ObservationsFrom(entries + [Assigned(invoice, bucket, customer)], ledger, SHOP, PERIOD)
            == ObservationsFrom(entries, ledger, SHOP, PERIOD)
               + [Observed(bucket == "treatment", customer, OwnNet(ledger, SHOP, invoice))]
  {
    var e := Assigned(invoice, bucket, customer);
    assert (entries + [e])[..|entries|] == entries;
    assert Opens(e, SHOP, PERIOD);
  }

  lemma FourAssigned(ledger: seq<Event>, first: real)
    requires OwnNet(ledger, SHOP, "i1") == 0.0 && OwnNet(ledger, SHOP, "i2") == 0.0
    requires OwnNet(ledger, SHOP, "i3") == first && OwnNet(ledger, SHOP, "i4") == 4990.0
    ensures ObservationsFrom(ASSIGNMENTS, ledger, SHOP, PERIOD) == Four(first)
  {
    var one := [] + [Assigned("i1", "control", "c1")];
    var two := one + [Assigned("i2", "control", "c2")];
    var three := two + [Assigned("i3", "treatment", "t1")];
    ObservedNext([], "i1", "control", "c1", ledger);
    ObservedNext(one, "i2", "control", "c2", ledger);
    ObservedNext(two, "i3", "treatment", "t1", ledger);
    ObservedNext(three, "i4", "treatment", "t2", ledger);
    assert ASSIGNMENTS == three + [Assigned("i4", "treatment", "t2")];
  }

  /** Assignments carry no money, so only the recoveries count. */
  lemma RecoveriesTotal<K>(key: Event -> K, h: Event -> real, k: K)
    requires forall i :: 0 <= i < |ASSIGNMENTS| ==> h(ASSIGNMENTS[i]) == 0.0
    ensures KeyTotal(BASE, key, h, k)
            == (if key(RECOVERIES[0]) == k then h(RECOVERIES[0]) else 0.0)
               + (if key(RECOVERIES[1]) == k then h(RECOVERIES[1]) else 0.0)
  {
    var none: seq<Event> := [];
    var one := ASSIGNMENTS + [RECOVERIES[0]];
    assert none + ASSIGNMENTS == ASSIGNMENTS && one + [RECOVERIES[1]] == BASE;
    StatementsAddNothing(none, ASSIGNMENTS, key, h, k);
    KeyTotalAppend(ASSIGNMENTS, RECOVERIES[0], key, h, k);
    KeyTotalAppend(one, RECOVERIES[1], key, h, k);
  }

  /** What the ledger holds on each invoice. */
  function HeldOn(invoice: string): real {
    if invoice == "i3" then 5000.0 else if invoice == "i4" then 4990.0 else 0.0
  }

  lemma NetsOfBase()
    ensures forall invoice :: OwnNet(BASE, SHOP, invoice) == HeldOn(invoice)
  {
    forall invoice ensures OwnNet(BASE, SHOP, invoice) == HeldOn(invoice) {
      RecoveriesTotal(OwnerOf, Signed, (SHOP, invoice));
    }
  }

  lemma FirstRecovered()
    ensures NetRecovered(BASE, "i3") == 5000.0 && NetReversed(BASE, "i3") == 0.0
  {
    RecoveriesTotal(InvoiceOf, KindAmount(CaseRecovered), "i3");
    RecoveriesTotal(InvoiceOf, KindAmount(CaseReversed), "i3");
    RecoveriesTotal(InvoiceOf, KindAmount(ReversalReverted), "i3");
  }

  lemma ObservationsOfBase()
    ensures ObservationsOf(BASE, SHOP, PERIOD) == Four(5000.0)
  {
    NetsOfBase();
    NoAssignmentNoObservation(ASSIGNMENTS, RECOVERIES, BASE, SHOP, PERIOD);
    FourAssigned(BASE, 5000.0);
  }

  lemma {:induction false} NoStatementNoMark(ledger: seq<Event>, m: string)
    requires forall i :: 0 <= i < |ledger| ==> ledger[i].kind != UpliftStatement
    ensures MarkOf(ledger, m) == Mark(None, 0)
  {
    if ledger != [] { NoStatementNoMark(ledger[..|ledger| - 1], m); }
  }

  lemma ShopListed()
    ensures SHOP in Distinct(BASE, MerchantOf)
    ensures Watermark(BASE, SHOP) == 0 && forall m :: MarkOf(BASE, m) == Mark(None, 0)
  {
    DistinctIffPresent(BASE, MerchantOf, SHOP);
    assert BASE[0] in BASE && MerchantOf(BASE[0]) == SHOP;
    forall m ensures MarkOf(BASE, m) == Mark(None, 0) { NoStatementNoMark(BASE, m); }
  }

  // ----- the estimate over four observations -----

  lemma WhereNext(rows: seq<Observation>, o: Observation, p: Observation -> bool)
    ensures Where(rows + [o], p) == Where(rows, p) + if p(o) then [o] else []
  {
    assert (rows + [o])[..|rows|] == rows;
  }

  lemma ArmOfFour(first: real, treated: bool)
    ensures Where(Four(first), InArm(treated)) == if treated then Four(first)[2..] else Four(first)[..2]
  {
    var os, arm := Four(first), InArm(treated);
    var one := [] + [os[0]];
    var two := one + [os[1]];
    var three := two + [os[2]];
    WhereNext([], os[0], arm);
    WhereNext(one, os[1], arm);
    WhereNext(two, os[2], arm);
    WhereNext(three, os[3], arm);
    assert os == three + [os[3]];
  }

  lemma {:induction false} HavingAll(rows: seq<Observation>, k: string)
    requires forall i :: 0 <= i < |rows| ==> rows[i].stratum == k
    ensures Having(rows, StratumOf, k) == rows
  {
    if rows != [] {
      var prior, last := rows[..|rows| - 1], rows[|rows| - 1];
      HavingAll(prior, k);
      assert Having(rows, StratumOf, k) == prior + [last];
      assert rows == prior + [last];
    }
  }

  lemma ArmsOfFour(first: real)
    ensures ArmCount(Four(first), true) == 2 && ArmCount(Four(first), false) == 2
    ensures Where(Four(first), InArm(false)) == Four(first)[..2] && Where(Four(first), InArm(true)) == Four(first)[2..]
    ensures Having(Four(first), StratumOf, "s") == Four(first)
  {
    ArmOfFour(first, true);
    ArmOfFour(first, false);
    HavingAll(Four(first), "s");
  }

  /** The rows of one arm. */
  function Rows(first: real, treated: bool): seq<Row> {
    if treated then [Row("t1", first), Row("t2", 4990.0)] else [Row("c1", 0.0), Row("c2", 0.0)]
  }

  lemma {:induction false} OneKey(rows: seq<Observation>, key: Observation -> string, k: string)
    requires rows != [] && forall i :: 0 <= i < |rows| ==> key(rows[i]) == k
    ensures Distinct(rows, key) == [k]
  {
    if |rows| > 1 { OneKey(rows[..|rows| - 1], key, k); }
  }

  ghost predicate Together(first: real, key: Observation -> string) {
    forall i :: 0 <= i < 4 ==> key(Four(first)[i]) == "s"
  }

  lemma ArmRowsNext(obs: seq<Observation>, o: Observation, key: Observation -> string, treated: bool)
    requires key(o) == "s"
    ensures ArmRows(obs + [o], key, "s", treated)
            == ArmRows(obs, key, "s", treated) + if o.treated == treated then [Row(o.cluster, o.outcome)] else []
  {
    assert (obs + [o])[..|obs|] == obs;
  }

  lemma ArmRowsOfFour(first: real, key: Observation -> string, treated: bool)
    requires Together(first, key)
    ensures ArmRows(Four(first), key, "s", treated) == Rows(first, treated)
  {
    var os := Four(first);
    var one := [] + [os[0]];
    var two := one + [os[1]];
    var three := two + [os[2]];
    ArmRowsNext([], os[0], key, treated);
    ArmRowsNext(one, os[1], key, treated);
    ArmRowsNext(two, os[2], key, treated);
    ArmRowsNext(three, os[3], key, treated);
    assert os == three + [os[3]];
  }

  function OnlyCell(first: real): Cell { Cell(Rows(first, false), Rows(first, true)) }

  /** Under any labelling that puts the four invoices together, one cell holds both arms. */
  lemma CellOfFour(first: real, key: Observation -> string)
    requires Together(first, key)
    ensures Distinct(Four(first), key) == ["s"] && CellOf(Four(first), key)("s") == OnlyCell(first)
  {
    OneKey(Four(first), key, "s");
    ArmRowsOfFour(first, key, false);
    ArmRowsOfFour(first, key, true);
  }

  lemma LabelsOfFour(first: real)
    ensures Together(first, U.Key(Four(first), CONFIG))
  {
    ArmsOfFour(first);
    forall i | 0 <= i < 4 ensures U.Key(Four(first), CONFIG)(Four(first)[i]) == "s" {
      LabelCases(Four(first), 1, Four(first)[i]);
    }
  }

  lemma PairOfRows(x: Row, y: Row)
    requires x.cluster != y.cluster
    ensures Distinct([x, y], ClusterOf) == [x.cluster, y.cluster]
    ensures Total([x, y], ValueOf) == x.value + y.value
  {
    var none: seq<Row> := [];
    DistinctAppend(none, x, ClusterOf);
    DistinctAppend(none + [x], y, ClusterOf);
    TotalAppend(none, x, ValueOf);
    TotalAppend(none + [x], y, ValueOf);
    assert [x, y] == none + [x] + [y];
  }

  lemma RowsOfFour(first: real, treated: bool)
    ensures |Distinct(Rows(first, treated), ClusterOf)| == 2
    ensures ArmMean(Rows(first, treated)) == if treated then (first + 4990.0) / 2.0 else 0.0
  {
    if treated { PairOfRows(Row("t1", first), Row("t2", 4990.0)); } else { PairOfRows(Row("c1", 0.0), Row("c2", 0.0)); }
  }

  lemma TotalOfOne(k: string, f: string -> real)
    ensures Total([k], f) == f(k)
  {
    assert [k][..0] == [];
  }

  lemma TotalOfTwo(j: string, k: string, f: string -> real)
    ensures Total([j, k], f) == f(j) + f(k)
  {
    TotalOfOne(j, f);
    TotalAppend([j], k, f);
    assert [j, k] == [j] + [k];
  }

  lemma KeyTotalOfTwo(x: Row, y: Row, h: Row -> real, k: string)
    ensures KeyTotal([x, y], ClusterOf, h, k)
            == (if x.cluster == k then h(x) else 0.0) + (if y.cluster == k then h(y) else 0.0)
  {
    var none: seq<Row> := [];
    assert [x, y] == none + [x] + [y];
    KeyTotalAppend(none, x, ClusterOf, h, k);
    KeyTotalAppend(none + [x], y, ClusterOf, h, k);
  }

  lemma ResidualsOfPair(x: Row, y: Row, mean: real)
    requires x.cluster != y.cluster
    ensures ClusterSum([x, y], mean)(x.cluster) == x.value - mean
    ensures ClusterSum([x, y], mean)(y.cluster) == y.value - mean
  {
    KeyTotalOfTwo(x, y, Residual(mean), x.cluster);
    KeyTotalOfTwo(x, y, Residual(mean), y.cluster);
  }

  lemma SpreadOfTwo(square: real)
    ensures PerSquaredCount(square + square, 2, 2) == square
  {
  }

  lemma OppositeSquares(a: real, b: real)
    requires a == b || a == -b
    ensures a * a == b * b
  {
  }

  /** The variance of two rows in two clusters is the square of half the distance between their values. */
  lemma VarianceOfPair(x: Row, y: Row, d: real)
    requires x.cluster != y.cluster && (x.value - y.value == 2.0 * d || x.value - y.value == -2.0 * d)
    ensures ClusteredVariance([x, y]) == d * d
  {
    var rows := [x, y];
    var mean := ArmMean(rows);
    var f := ClusterSum(rows, mean);
    PairOfRows(x, y);
    ResidualsOfPair(x, y, mean);
    TotalOfTwo(x.cluster, y.cluster, Squared(f));
    OppositeSquares(x.value - mean, d);
    OppositeSquares(y.value - mean, d);
    SpreadOfTwo(d * d);
  }

  lemma OnlyCellWeighsOne(first: real)
    ensures Weight(OnlyCell(first), 2) == 1.0
  {
  }

  lemma TimesOne(x: real)
    ensures Times(1.0, x) == x && Times(Times(1.0, 1.0), x) == x
  {
  }

  lemma DeltaOfOnlyCell(first: real)
    ensures DeltaOf(OnlyCell(first)) == (first + 4990.0) / 2.0
  {
    RowsOfFour(first, false);
    RowsOfFour(first, true);
  }

  /** The estimate is the mean of the two treated outcomes. */
  lemma DeltaOfFour(first: real, cellOf: string -> Cell)
    requires cellOf("s") == OnlyCell(first)
    ensures Total(["s"], WeightedDelta(cellOf, 2)) == (first + 4990.0) / 2.0
  {
    TotalOfOne("s", WeightedDelta(cellOf, 2));
    OnlyCellWeighsOne(first);
    DeltaOfOnlyCell(first);
    TimesOne(DeltaOf(OnlyCell(first)));
  }

  /** d is half the distance between the treated outcomes. */
  predicate HalfApart(first: real, d: real) { d >= 0.0 && (first - 4990.0 == 2.0 * d || first - 4990.0 == -2.0 * d) }

  lemma VarianceOfOnlyCell(first: real, d: real)
    requires HalfApart(first, d)
    ensures VarianceOf(OnlyCell(first)) == d * d
  {
    VarianceOfPair(Row("c1", 0.0), Row("c2", 0.0), 0.0);
    VarianceOfPair(Row("t1", first), Row("t2", 4990.0), d);
  }

  lemma VarianceOfFour(first: real, cellOf: string -> Cell, d: real)
    requires HalfApart(first, d) && cellOf("s") == OnlyCell(first)
    ensures Total(["s"], WeightedVariance(cellOf, 2)) == d * d
  {
    TotalOfOne("s", WeightedVariance(cellOf, 2));
    OnlyCellWeighsOne(first);
    VarianceOfOnlyCell(first, d);
    TimesOne(VarianceOf(OnlyCell(first)));
  }

  lemma LargerSquare(a: real, b: real)
    requires 0.0 <= a < b
    ensures a * a < b * b
  {
    NamedProductPositive(b - a, b + a, (b - a) * (b + a));
  }

  lemma SameRoot(r: real, d: real)
    requires r >= 0.0 && d >= 0.0 && r * r == d * d
    ensures r == d
  {
    if r < d { LargerSquare(r, d); }
    if d < r { LargerSquare(d, r); }
  }

  lemma RootOfSquare(root: real -> real, d: real)
    requires Cuped.IsSquareRoot(root) && d >= 0.0
    ensures root(NonNegative(d * d)) == d
  {
    SquareNonNegative(d);
    SameRoot(root(d * d), d);
  }

  // ----- the bills -----

  lemma ClustersOfFour(first: real)
    ensures U.ControlClusters(Four(first)) == 2 && U.TreatmentClusters(Four(first)) == 2
  {
    var os := Four(first);
    var none: seq<Observation> := [];
    ArmsOfFour(first);
    assert os[..2] == none + [os[0]] + [os[1]] && os[2..] == none + [os[2]] + [os[3]];
    DistinctAppend(none, os[0], U.CustomerOf);
    DistinctAppend(none + [os[0]], os[1], U.CustomerOf);
    DistinctAppend(none, os[2], U.CustomerOf);
    DistinctAppend(none + [os[2]], os[3], U.CustomerOf);
  }

  /** The line has two customers and two invoices in each arm, and the standard error is half the distance. */
  lemma EstimateOfFour(first: real, d: real, stats: U.Statistics, u: U.BillableUplift)
    requires U.Estimates(Four(first), CONFIG, stats, u) && Sound(stats) && HalfApart(first, d)
    ensures u.deltaPer == (first + 4990.0) / 2.0 && u.se == d
    ensures u.treatedInvoices == 2 && u.controlClusters == 2 && !u.srmBreached
    ensures u.lines == [LineOf("s", OnlyCell(first), 2)]
  {
    var os := Four(first);
    var key := U.Key(os, CONFIG);
    ArmsOfFour(first);
    LabelsOfFour(first);
    CellOfFour(first, key);
    DeltaOfFour(first, CellOf(os, key));
    VarianceOfFour(first, CellOf(os, key), d);
    RootOfSquare(stats.root, d);
    ClustersOfFour(first);
    assert Mapped(["s"], U.LineAt(os, CONFIG)) == [U.LineAt(os, CONFIG)("s")];
  }

  lemma BoundBetween(halfWidth: real)
    requires 0.0 <= halfWidth <= 100.0
    ensures 9790 <= U.LowerDollars(NonNegative(4995.0 - halfWidth), 2) <= 9990
  {
  }

  lemma LineOfFour(first: real)
    ensures var l := LineOf("s", OnlyCell(first), 2);
            U.Estimable(l) && l.key != POOLED
  {
    RowsOfFour(first, false);
    RowsOfFour(first, true);
  }

  lemma HasReason(reasons: seq<U.GateReason>)
    ensures reasons != [] ==> exists g :: g in reasons
  {
    if reasons != [] { assert reasons[0] in reasons; }
  }

  lemma GatesPass(u: U.BillableUplift)
    requires u.treatedInvoices == 2 && u.controlClusters == 2 && !u.srmBreached && u.se > 0.0 && u.lowerPer > 0.0
    requires |u.lines| == 1 && U.Estimable(u.lines[0]) && u.lines[0].key != POOLED
    requires forall g :: g in u.gateReasons <==> U.Fails(g, u, CONFIG)
    ensures u.gateReasons == []
  {
    HasReason(u.gateReasons);
    forall g ensures !U.Fails(g, u, CONFIG) {}
  }

  lemma ProvenBound(config: U.Config, stats: U.Statistics, prior: int, u: U.BillableUplift)
    requires U.Prices(config, stats, prior, u) && Sound(stats)
    requires u.deltaPer == 4995.0 && u.se == 5.0 && u.treatedInvoices == 2
    ensures 9790 <= u.lowerDollarsCum <= 9990 && u.lowerPer > 0.0
  {
    BoundBetween(u.halfWidth);
  }

  lemma ProvenGates(stats: U.Statistics, prior: int, u: U.BillableUplift)
    requires U.Prices(CONFIG, stats, prior, u)
    requires u.treatedInvoices == 2 && u.controlClusters == 2 && !u.srmBreached && u.se > 0.0 && u.lowerPer > 0.0
    requires u.lines == [LineOf("s", OnlyCell(5000.0), 2)]
    ensures u.billable
  {
    LineOfFour(5000.0);
    GatesPass(u);
  }

  /** Both recoveries held: a bound between 9790 and 9990 that passes every gate. */
  lemma ProvenBill(stats: U.Statistics, prior: int, u: U.BillableUplift)
    requires U.Estimates(Four(5000.0), CONFIG, stats, u) && U.Prices(CONFIG, stats, prior, u) && Sound(stats)
    ensures 9790 <= u.lowerDollarsCum <= 9990 && u.billable && u.deltaPer == 4995.0 && u.treatedInvoices == 2
  {
    EstimateOfFour(5000.0, 5.0, stats, u);
    ProvenBound(CONFIG, stats, prior, u);
    ProvenGates(stats, prior, u);
  }

  lemma LostBound(config: U.Config, stats: U.Statistics, prior: int, u: U.BillableUplift)
    requires U.Prices(config, stats, prior, u) && Sound(stats)
    requires u.deltaPer == 2495.0 && u.se == 2495.0 && u.treatedInvoices == 2
    ensures u.lowerDollarsCum == 0
  {
  }

  /** The first recovery disputed: the spread outgrows the lift, and nothing is proven. */
  lemma LostBill(stats: U.Statistics, prior: int, u: U.BillableUplift)
    requires U.Estimates(Four(0.0), CONFIG, stats, u) && U.Prices(CONFIG, stats, prior, u) && Sound(stats)
    ensures u.lowerDollarsCum == 0
  {
    EstimateOfFour(0.0, 2495.0, stats, u);
    LostBound(CONFIG, stats, prior, u);
  }

  /** A run under a sound configuration, with its statements appended. */
  method RunMonth(run: Runner, ledger: seq<Event>, now: int) returns (bills: seq<Bill>, after: seq<Event>)
    requires Cuped.IsSquareRoot(run.stats.root) && forall e :: !U.Misconfigured(run.config, e)
    ensures Bills(run, ledger, bills) && after == ledger + StatementsOf(bills, now)
  {
    var r := RunBilling(ledger, now, run.period, run.config, run.stats, run.fraction);
    bills, after := r.value.bills, ledger + r.value.statements;
  }

  /** A runner of this month under this configuration, two percent held out. */
  ghost predicate ExampleRunner(run: Runner) {
    run.period == PERIOD && run.config == CONFIG && Sound(run.stats) && run.fraction(SHOP) == 0.02
  }
}
