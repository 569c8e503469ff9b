/** The billable estimate: adjust, stratify, bound, gate, and price the newly proven increment. */
module Uplift {
  import opened ClusterVariance
  import opened PostStratification
  import opened RealArithmetic
  import opened Sums
  import opened Wrappers
  import Cuped

  datatype Config = Config(
    alpha: real, tau2: real, feeRate: real, useCuped: bool, perStratumFloor: nat,
    minControlClusters: nat, minTreatedInvoices: nat)

  /** The foreign numerics: Math.sqrt, the confidence half-width at a standard error, the sample-ratio test. */
  datatype Statistics = Statistics(root: real -> real, halfWidth: real -> real, srmBreached: (nat, nat) -> bool)

  datatype ConfigError = AlphaOutOfRange | Tau2NotPositive | FeeRateOutOfRange

  datatype GateReason =
    | TooFewControlCustomers | TooFewTreatedInvoices | StandardErrorUnestimable | StratumUnestimable
    | LiftUnproven | SrmBreached | PooledBelowFloor

  datatype BillableUplift = BillableUplift(
    deltaPer: real, se: real, halfWidth: real, lowerPer: real, treatedInvoices: nat, controlClusters: nat,
    lines: seq<StratumLine>, srmBreached: bool, lowerDollarsCum: int, priorBilledDollars: int,
    billableIncrement: int, fee: int, billable: bool, gateReasons: seq<GateReason>)

  // ----- adjustment -----

  function Outcomes(obs: seq<Observation>): seq<real> {
    seq(|obs|, i requires 0 <= i < |obs| => obs[i].outcome)
  }

  function Covariates(obs: seq<Observation>): seq<real> {
    seq(|obs|, i requires 0 <= i < |obs| => obs[i].covariate)
  }

  function AdjustedObservations(obs: seq<Observation>, fit: Cuped.CupedFit): seq<Observation> {
    seq(|obs|, i requires 0 <= i < |obs| => obs[i].(outcome := Cuped.ApplyCuped(obs[i].outcome, obs[i].covariate, fit)))
  }

  function Prepared(obs: seq<Observation>, config: Config): seq<Observation> {
    if config.useCuped then AdjustedObservations(obs, Cuped.Fitted(Outcomes(obs), Covariates(obs))) else obs
  }

  /** Outcomes shift; arms, strata and clusters do not, so neither do any counts. */
  lemma AdjustmentMovesOutcomesOnly(obs: seq<Observation>, config: Config)
    ensures |Prepared(obs, config)| == |obs|
    ensures forall i :: 0 <= i < |obs| ==> Prepared(obs, config)[i].(outcome := obs[i].outcome) == obs[i]
    ensures Cuped.Sum(Outcomes(Prepared(obs, config))) == Cuped.Sum(Outcomes(obs))
    ensures Cuped.Variance(Outcomes(Prepared(obs, config))) <= Cuped.Variance(Outcomes(obs))
  {
    var ys, xs := Outcomes(obs), Covariates(obs);
    var fit := Cuped.Fitted(ys, xs);
    Cuped.CupedShrinksVariance(ys, xs);
    assert Outcomes(AdjustedObservations(obs, fit)) == Cuped.Adjusted(ys, xs, fit);
  }

  // ----- bounds, gates, fee -----

  function LowerDollars(lowerPer: real, treated: nat): int { Round(lowerPer * treated as real) }

  /** Credits always settle; charges only when every gate passes. */
  function FeeFor(rate: real, billable: bool, increment: int): int {
    if billable || increment < 0 then Round(rate * increment as real) else 0
  }

  function CustomerOf(o: Observation): string { o.cluster }

  function ControlClusters(obs: seq<Observation>): nat { |Distinct(Where(obs, InArm(false)), CustomerOf)| }

  function TreatmentClusters(obs: seq<Observation>): nat { |Distinct(Where(obs, InArm(true)), CustomerOf)| }

  predicate Estimable(l: StratumLine) {
    l.treatmentInvoices >= 1 && l.controlInvoices >= 1 && l.treatmentClusters >= 2 && l.controlClusters >= 2
  }

  predicate ClearsFloor(l: StratumLine, floor: nat) {
    l.treatmentInvoices >= floor && l.controlInvoices >= floor
  }

  predicate PoolsBelowFloor(l: StratumLine, floor: nat) {
    l.key == POOLED && l.treatmentInvoices + l.controlInvoices > 0 && !ClearsFloor(l, floor)
  }

  predicate Fails(g: GateReason, r: BillableUplift, config: Config) {
    match g
    case TooFewControlCustomers => r.controlClusters < config.minControlClusters
    case TooFewTreatedInvoices => r.treatedInvoices < config.minTreatedInvoices
    case StandardErrorUnestimable => r.se <= 0.0
    case StratumUnestimable => exists i :: 0 <= i < |r.lines| && !Estimable(r.lines[i])
    case LiftUnproven => r.lowerPer <= 0.0
    case SrmBreached => r.srmBreached
    case PooledBelowFloor => exists i :: 0 <= i < |r.lines| && PoolsBelowFloor(r.lines[i], config.perStratumFloor)
  }

  ghost function Key(obs: seq<Observation>, config: Config): Observation -> string {
    Label(obs, config.perStratumFloor)
  }

  ghost function LineAt(obs: seq<Observation>, config: Config): string -> StratumLine {
    k => LineOf(k, CellOf(obs, Key(obs, config))(k), ArmCount(obs, true))
  }

  /** The point estimate, its standard error, the lines and the sample-ratio flag, over prepared observations. */
  ghost predicate Estimates(obs: seq<Observation>, config: Config, stats: Statistics, r: BillableUplift) {
    var key, n := Key(obs, config), ArmCount(obs, true);
    && r.lines == Mapped(Distinct(obs, key), LineAt(obs, config))
    && r.deltaPer == Total(Distinct(obs, key), WeightedDelta(CellOf(obs, key), n))
    && r.se == stats.root(NonNegative(Total(Distinct(obs, key), WeightedVariance(CellOf(obs, key), n))))
    && r.treatedInvoices == n && r.controlClusters == ControlClusters(obs)
    && r.srmBreached == stats.srmBreached(r.controlClusters, TreatmentClusters(obs))
  }

  ghost predicate Prices(config: Config, stats: Statistics, prior: int, r: BillableUplift) {
    && r.halfWidth == stats.halfWidth(r.se) && r.lowerPer == NonNegative(r.deltaPer - r.halfWidth)
    && (forall g :: g in r.gateReasons <==> Fails(g, r, config))
    && (r.billable <==> r.gateReasons == [])
    && r.lowerDollarsCum == LowerDollars(r.lowerPer, r.treatedInvoices) && r.priorBilledDollars == prior
    && r.billableIncrement == r.lowerDollarsCum - prior
    && r.fee == FeeFor(config.feeRate, r.billable, r.billableIncrement)
  }

  method PrepareObservations(obs: seq<Observation>, config: Config, root: real -> real) returns (r: seq<Observation>)
    requires Cuped.IsSquareRoot(root)
    ensures r == Prepared(obs, config)
  {
    if !config.useCuped { return obs; }
    var fit := Cuped.FitCuped(Outcomes(obs), Covariates(obs), root);
    r := AdjustedObservations(obs, fit);
  }

  lemma CellSummarises(obs: seq<Observation>, config: Config, k: string)
    ensures var key, n := Key(obs, config), ArmCount(obs, true);
            Summarises(k, CellOf(obs, key)(k), n, LineAt(obs, config)(k), WeightedDelta(CellOf(obs, key), n)(k),
                       WeightedVariance(CellOf(obs, key), n)(k))
  {
  }

  /** Steps 2 to 4: floors, cells, lines, point estimate and variance. */
  method Stratify(obs: seq<Observation>, config: Config)
    returns (lines: seq<StratumLine>, deltaPer: real, varDelta: real)
    ensures var key, n := Key(obs, config), ArmCount(obs, true);
            && lines == Mapped(Distinct(obs, key), LineAt(obs, config))
            && deltaPer == Total(Distinct(obs, key), WeightedDelta(CellOf(obs, key), n))
            && varDelta == Total(Distinct(obs, key), WeightedVariance(CellOf(obs, key), n))
  {
    ghost var key := Key(obs, config);
    var labels := EffectiveLabels(obs, config.perStratumFloor);
    var order, cells := BuildCells(obs, labels, key);
    var n := ArmCount(obs, true);
    forall k | k in order
      ensures k in cells && Summarises(k, cells[k], n, LineAt(obs, config)(k), WeightedDelta(CellOf(obs, key), n)(k),
                                       WeightedVariance(CellOf(obs, key), n)(k)) {
      CellSummarises(obs, config, k);
    }
    lines, deltaPer, varDelta := SummariseStrata(order, cells, n, LineAt(obs, config),
      WeightedDelta(CellOf(obs, key), n), WeightedVariance(CellOf(obs, key), n));
  }

  /** Whether some line cannot be estimated, and whether the pooled one is below the floor. */
  method LineGates(lines: seq<StratumLine>, floor: nat) returns (anyUnestimable: bool, pooledBelowFloor: bool)
    ensures anyUnestimable <==> exists i :: 0 <= i < |lines| && !Estimable(lines[i])
    ensures pooledBelowFloor <==> exists i :: 0 <= i < |lines| && PoolsBelowFloor(lines[i], floor)
  {
    anyUnestimable, pooledBelowFloor := false, false;
    var i := 0;
    while i < |lines|
      invariant i <= |lines|
      invariant anyUnestimable <==> exists j :: 0 <= j < i && !Estimable(lines[j])
      invariant pooledBelowFloor <==> exists j :: 0 <= j < i && PoolsBelowFloor(lines[j], floor)
    {
      if !Estimable(lines[i]) { anyUnestimable := true; }
      if PoolsBelowFloor(lines[i], floor) { pooledBelowFloor := true; }
      i := i + 1;
    }
  }

  /** The gates, checked in order. */
  method GateReasons(r: BillableUplift, config: Config) returns (reasons: seq<GateReason>)
    ensures forall g :: g in reasons <==> Fails(g, r, config)
  {
    var anyUnestimable, pooledBelowFloor := LineGates(r.lines, config.perStratumFloor);
    reasons := [];
    if r.controlClusters < config.minControlClusters { reasons := reasons + [TooFewControlCustomers]; }
    if r.treatedInvoices < config.minTreatedInvoices { reasons := reasons + [TooFewTreatedInvoices]; }
    if r.se <= 0.0 { reasons := reasons + [StandardErrorUnestimable]; }
    if anyUnestimable { reasons := reasons + [StratumUnestimable]; }
    if r.lowerPer <= 0.0 { reasons := reasons + [LiftUnproven]; }
    if r.srmBreached { reasons := reasons + [SrmBreached]; }
    if pooledBelowFloor { reasons := reasons + [PooledBelowFloor]; }
    forall g ensures g in reasons <==> Fails(g, r, config) {
      match g {
        case TooFewControlCustomers =>
        case TooFewTreatedInvoices =>
        case StandardErrorUnestimable =>
        case StratumUnestimable =>
        case LiftUnproven =>
        case SrmBreached =>
        case PooledBelowFloor =>
      }
    }
  }

  predicate Misconfigured(config: Config, e: ConfigError) {
    match e
    case AlphaOutOfRange => !(0.0 < config.alpha < 1.0)
    case Tau2NotPositive => config.tau2 <= 0.0
    case FeeRateOutOfRange => !(0.0 <= config.feeRate <= 1.0)
  }

  lemma SameGates(g: GateReason, r: BillableUplift, s: BillableUplift, config: Config)
    requires r.(gateReasons := s.gateReasons, billable := s.billable, fee := s.fee) == s
    ensures Fails(g, r, config) <==> Fails(g, s, config)
  {
  }

  /** Steps 5 to 9: half-width, lower bound, gates and the fee on the increment. */
  method PriceIncrement(config: Config, stats: Statistics, prior: int, deltaPer: real, se: real, treated: nat,
                        controlClusters: nat, lines: seq<StratumLine>, srm: bool) returns (r: BillableUplift)
    ensures Prices(config, stats, prior, r)
    ensures r.deltaPer == deltaPer && r.se == se && r.treatedInvoices == treated
    ensures r.controlClusters == controlClusters && r.lines == lines && r.srmBreached == srm
  {
    var halfWidth := stats.halfWidth(se);
    var lowerPer := NonNegative(deltaPer - halfWidth);
    var cum := LowerDollars(lowerPer, treated);
    r := BillableUplift(deltaPer, se, halfWidth, lowerPer, treated, controlClusters, lines, srm, cum, prior,
                        cum - prior, 0, false, []);
    var reasons := GateReasons(r, config);
    var billable := reasons == [];
    var fee := FeeFor(config.feeRate, billable, cum - prior);
    ghost var draft := r;
    r := r.(gateReasons := reasons, billable := billable, fee := fee);
    forall g ensures Fails(g, r, config) <==> Fails(g, draft, config) { SameGates(g, r, draft, config); }
  }

  method ComputeBillableUplift(observations: seq<Observation>, config: Config, stats: Statistics, prior: int)
    returns (r: Result<BillableUplift, ConfigError>)
    requires Cuped.IsSquareRoot(stats.root)
    ensures r.Err? <==> exists e :: Misconfigured(config, e)
    ensures r.Err? ==> Misconfigured(config, r.error)
    ensures r.Ok? ==> Estimates(Prepared(observations, config), config, stats, r.value)
    ensures r.Ok? ==> Prices(config, stats, prior, r.value)
  {
    if !(0.0 < config.alpha < 1.0) {
      assert Misconfigured(config, AlphaOutOfRange);
      return Err(AlphaOutOfRange);
    }
    if config.tau2 <= 0.0 {
      assert Misconfigured(config, Tau2NotPositive);
      return Err(Tau2NotPositive);
    }
    if !(0.0 <= config.feeRate <= 1.0) {
      assert Misconfigured(config, FeeRateOutOfRange);
      return Err(FeeRateOutOfRange);
    }
    var obs := PrepareObservations(observations, config, stats.root);
    var treated, controlClusters := ArmCount(obs, true), ControlClusters(obs);
    var lines, deltaPer, varDelta := Stratify(obs, config);
    var se := stats.root(NonNegative(varDelta));
    var srm := stats.srmBreached(controlClusters, TreatmentClusters(obs));
    var priced := PriceIncrement(config, stats, prior, deltaPer, se, treated, controlClusters, lines, srm);
    r := Ok(priced);
  }

  // ----- what a bill stands for -----

  lemma LineAtClearsFloor(obs: seq<Observation>, config: Config, k: string)
    requires k in Distinct(obs, Key(obs, config))
    ensures LineAt(obs, config)(k).key == k
    ensures k != POOLED ==> ClearsFloor(LineAt(obs, config)(k), config.perStratumFloor)
  {
    var cell := CellOf(obs, Label(obs, config.perStratumFloor))(k);
    assert LineAt(obs, config)(k) == LineOf(k, cell, ArmCount(obs, true));
    if k != POOLED { UnpooledClearFloor(obs, config.perStratumFloor, k); }
  }

  lemma MappedLinesClearFloor(keys: seq<string>, f: string -> StratumLine, floor: nat, lines: seq<StratumLine>)
    requires lines == Mapped(keys, f)
    requires forall k :: k in keys ==> f(k).key == k && (k != POOLED ==> ClearsFloor(f(k), floor))
    ensures forall i :: 0 <= i < |lines| && lines[i].key != POOLED ==> ClearsFloor(lines[i], floor)
  {
    forall i | 0 <= i < |lines| && lines[i].key != POOLED ensures ClearsFloor(lines[i], floor) {
      assert keys[i] in keys;
    }
  }

  lemma UnpooledLinesClearFloor(obs: seq<Observation>, config: Config, lines: seq<StratumLine>)
    requires lines == Mapped(Distinct(obs, Key(obs, config)), LineAt(obs, config))
    ensures forall i :: 0 <= i < |lines| && lines[i].key != POOLED ==> ClearsFloor(lines[i], config.perStratumFloor)
  {
    var keys, f := Distinct(obs, Key(obs, config)), LineAt(obs, config);
    forall k | k in keys ensures f(k).key == k && (k != POOLED ==> ClearsFloor(f(k), config.perStratumFloor)) {
      LineAtClearsFloor(obs, config, k);
    }
    MappedLinesClearFloor(keys, f, config.perStratumFloor, lines);
  }

  lemma NoGateFails(config: Config, stats: Statistics, prior: int, r: BillableUplift, g: GateReason)
    requires Prices(config, stats, prior, r) && r.billable
    ensures !Fails(g, r, config)
  {
    assert g !in r.gateReasons;
  }

  lemma BillableLiftProven(config: Config, stats: Statistics, prior: int, r: BillableUplift)
    requires Prices(config, stats, prior, r) && r.billable
    ensures r.deltaPer > r.halfWidth && r.se > 0.0 && !r.srmBreached
    ensures r.treatedInvoices >= config.minTreatedInvoices && r.controlClusters >= config.minControlClusters
  {
    NoGateFails(config, stats, prior, r, LiftUnproven);
    NoGateFails(config, stats, prior, r, StandardErrorUnestimable);
    NoGateFails(config, stats, prior, r, SrmBreached);
    NoGateFails(config, stats, prior, r, TooFewTreatedInvoices);
    NoGateFails(config, stats, prior, r, TooFewControlCustomers);
  }

  lemma OpenGatesOnLines(config: Config, stats: Statistics, prior: int, r: BillableUplift)
    requires Prices(config, stats, prior, r) && r.billable
    ensures forall i :: 0 <= i < |r.lines| ==> Estimable(r.lines[i])
    ensures forall i :: 0 <= i < |r.lines| && r.lines[i].key == POOLED ==>
              ClearsFloor(r.lines[i], config.perStratumFloor)
  {
    NoGateFails(config, stats, prior, r, StratumUnestimable);
    NoGateFails(config, stats, prior, r, PooledBelowFloor);
  }

  /** A billable result rests on every stratum: both arms over the floor and at least two customers each. */
  lemma BillableIsSupported(obs: seq<Observation>, config: Config, stats: Statistics, prior: int, r: BillableUplift)
    requires Estimates(obs, config, stats, r) && Prices(config, stats, prior, r) && r.billable
    ensures forall i :: 0 <= i < |r.lines| ==>
              Estimable(r.lines[i]) && ClearsFloor(r.lines[i], config.perStratumFloor)
  {
    UnpooledLinesClearFloor(obs, config, r.lines);
    OpenGatesOnLines(config, stats, prior, r);
  }

  lemma SameReasonsSameVerdict(a: seq<GateReason>, b: seq<GateReason>)
    requires forall g :: g in a <==> g in b
    ensures a == [] <==> b == []
  {
    if a != [] { assert a[0] in b; }
    if b != [] { assert b[0] in a; }
  }

  function BoundFor(stats: Statistics, deltaPer: real, se: real, treated: nat): int {
    LowerDollars(NonNegative(deltaPer - stats.halfWidth(se)), treated)
  }

  /** The gates have no part in the bound. */
  lemma BoundIgnoresGates(config: Config, stats: Statistics, prior: int, r: BillableUplift)
    requires Prices(config, stats, prior, r)
    ensures r.lowerDollarsCum == BoundFor(stats, r.deltaPer, r.se, r.treatedInvoices)
  {
  }

  lemma SameEstimate(obs: seq<Observation>, config: Config, stats: Statistics, r: BillableUplift, s: BillableUplift)
    requires Estimates(obs, config, stats, r) && Estimates(obs, config, stats, s)
    ensures r.deltaPer == s.deltaPer && r.se == s.se && r.treatedInvoices == s.treatedInvoices
    ensures r.lines == s.lines && r.controlClusters == s.controlClusters && r.srmBreached == s.srmBreached
  {
  }

  lemma SameVerdict(config: Config, stats: Statistics, r: BillableUplift, s: BillableUplift, prior: int, prior': int)
    requires Prices(config, stats, prior, r) && Prices(config, stats, prior', s)
    requires r.deltaPer == s.deltaPer && r.se == s.se && r.treatedInvoices == s.treatedInvoices
    requires r.lines == s.lines && r.controlClusters == s.controlClusters && r.srmBreached == s.srmBreached
    ensures r.billable == s.billable
  {
    assert r.lowerPer == s.lowerPer;
    forall g ensures Fails(g, r, config) <==> Fails(g, s, config) {}
    SameReasonsSameVerdict(r.gateReasons, s.gateReasons);
  }

  /** The observations alone decide the proven bound and the gates; the watermark decides only the increment. */
  lemma BoundIsDetermined(obs: seq<Observation>, config: Config, stats: Statistics, r: BillableUplift,
                          s: BillableUplift, prior: int, prior': int)
    requires Estimates(obs, config, stats, r) && Prices(config, stats, prior, r)
    requires Estimates(obs, config, stats, s) && Prices(config, stats, prior', s)
    ensures r.lowerDollarsCum == s.lowerDollarsCum && r.billable == s.billable
    ensures r.deltaPer == s.deltaPer && r.treatedInvoices == s.treatedInvoices
  {
    SameEstimate(obs, config, stats, r, s);
    BoundIgnoresGates(config, stats, prior, r);
    BoundIgnoresGates(config, stats, prior', s);
    SameVerdict(config, stats, r, s, prior, prior');
  }

  lemma ProductSign(rate: real, increment: int)
    requires rate >= 0.0
    ensures increment <= 0 ==> rate * increment as real <= 0.0
    ensures increment >= 0 ==> rate * increment as real >= 0.0
  {
  }

  /** Money is asked for only on a billable, growing bound, and a shrinking bound is credited even when gated. */
  lemma FeeDirection(config: Config, stats: Statistics, prior: int, r: BillableUplift)
    requires Prices(config, stats, prior, r) && 0.0 <= config.feeRate <= 1.0
    ensures r.lowerDollarsCum >= 0
    ensures r.fee > 0 ==> r.billable && r.lowerDollarsCum > prior
    ensures r.lowerDollarsCum < prior ==> r.fee == Round(config.feeRate * (r.lowerDollarsCum - prior) as real) <= 0
    ensures r.billable ==> r.fee == Round(config.feeRate * (r.lowerDollarsCum - prior) as real)
    ensures r.lowerDollarsCum == prior ==> r.fee == 0
  {
    ProductSign(r.lowerPer, r.treatedInvoices);
    ProductSign(config.feeRate, r.billableIncrement);
  }
}
