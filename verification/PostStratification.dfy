/** Strata: which clear the floor, how the rest pool, and the post-stratified estimate built from them. */
module PostStratification {
  import opened ClusterVariance
  import opened RealArithmetic
  import opened Sums

  datatype Observation = Observation(treated: bool, cluster: string, stratum: string, outcome: real, covariate: real)

  const POOLED: string := "__pooled__"

  function StratumOf(o: Observation): string { o.stratum }

  function InArm(treated: bool): Observation -> bool { (o: Observation) => o.treated == treated }

  function ArmCount(obs: seq<Observation>, treated: bool): nat { |Where(obs, InArm(treated))| }

  predicate MetFloor(stratum: seq<Observation>, floor: nat) {
    ArmCount(stratum, false) >= floor && ArmCount(stratum, true) >= floor
  }

  function LabelOf(stratum: seq<Observation>, floor: nat, s: string): string {
    if MetFloor(stratum, floor) then s else POOLED
  }

  function StratumLabel(obs: seq<Observation>, floor: nat): string -> string {
    s => LabelOf(Having(obs, StratumOf, s), floor, s)
  }

  /** Sub-floor strata share one pooled label. */
  function Label(obs: seq<Observation>, floor: nat): Observation -> string {
    (o: Observation) => StratumLabel(obs, floor)(o.stratum)
  }

  /** One arm of the cell with this label, in observation order. */
  function ArmRows(obs: seq<Observation>, key: Observation -> string, tag: string, treated: bool): seq<Row> {
    if obs == [] then []
    else
      var prior, last := ArmRows(obs[..|obs| - 1], key, tag, treated), obs[|obs| - 1];
      if key(last) == tag && last.treated == treated then prior + [Row(last.cluster, last.outcome)] else prior
  }

  datatype Cell = Cell(control: seq<Row>, treatment: seq<Row>)

  function CellOf(obs: seq<Observation>, key: Observation -> string): string -> Cell {
    tag => Cell(ArmRows(obs, key, tag, false), ArmRows(obs, key, tag, true))
  }

  method FloorLabels(order: seq<string>, byStratum: map<string, seq<Observation>>, floor: nat,
                     ghost f: string -> string)
    returns (labels: map<string, string>)
    requires forall s :: s in order ==> s in byStratum && LabelOf(byStratum[s], floor, s) == f(s)
    ensures forall s :: s in order ==> s in labels && labels[s] == f(s)
  {
    labels := map[];
    var i := 0;
    while i < |order|
      invariant i <= |order| && forall s :: s in order[..i] ==> s in labels && labels[s] == f(s)
    {
      var s := order[i];
      labels := labels[s := LabelOf(byStratum[s], floor, s)];
      i := i + 1;
    }
  }

  method LabelEach(obs: seq<Observation>, labelOf: map<string, string>, ghost key: Observation -> string)
    returns (labels: seq<string>)
    requires forall o :: o in obs ==> o.stratum in labelOf && labelOf[o.stratum] == key(o)
    ensures |labels| == |obs| && forall i :: 0 <= i < |obs| ==> labels[i] == key(obs[i])
  {
    labels := [];
    while |labels| < |obs|
      invariant |labels| <= |obs| && forall i :: 0 <= i < |labels| ==> labels[i] == key(obs[i])
    {
      var o := obs[|labels|];
      labels := labels + [labelOf[o.stratum]];
    }
  }

  /** The effective label of every observation. */
  method EffectiveLabels(obs: seq<Observation>, floor: nat) returns (labels: seq<string>)
    ensures |labels| == |obs| && forall i :: 0 <= i < |obs| ==> labels[i] == Label(obs, floor)(obs[i])
  {
    var strata, byStratum := GroupBy(obs, StratumOf);
    var labelOf := FloorLabels(strata, byStratum, floor, StratumLabel(obs, floor));
    DistinctKeys(obs, StratumOf);
    forall o | o in obs ensures o.stratum in labelOf && labelOf[o.stratum] == Label(obs, floor)(o) {
      assert StratumOf(o) in strata;
    }
    labels := LabelEach(obs, labelOf, Label(obs, floor));
  }

  lemma {:induction false} AbsentCell(obs: seq<Observation>, key: Observation -> string, tag: string)
    requires forall o :: o in obs ==> key(o) != tag
    ensures CellOf(obs, key)(tag) == Cell([], [])
  {
    if obs != [] { AbsentCell(obs[..|obs| - 1], key, tag); }
  }

  function Extended(cell: Cell, o: Observation): Cell {
    if o.treated then cell.(treatment := cell.treatment + [Row(o.cluster, o.outcome)])
    else cell.(control := cell.control + [Row(o.cluster, o.outcome)])
  }

  lemma CellNext(obs: seq<Observation>, key: Observation -> string, i: nat, tag: string)
    requires i < |obs|
    ensures CellOf(obs[..i + 1], key)(tag) ==
            if key(obs[i]) == tag then Extended(CellOf(obs[..i], key)(tag), obs[i]) else CellOf(obs[..i], key)(tag)
  {
    TakeNext(obs, i);
  }

  /** The labels seen so far, and the cell of each. */
  ghost predicate CellsHold(order: seq<string>, cells: map<string, Cell>, obs: seq<Observation>,
                            key: Observation -> string) {
    && order == Distinct(obs, key) && (forall k :: k in cells <==> k in order)
    && forall k :: k in cells ==> cells[k] == CellOf(obs, key)(k)
  }

  function WithRow(cells: map<string, Cell>, k: string, o: Observation): map<string, Cell> {
    cells[k := Extended(if k in cells then cells[k] else Cell([], []), o)]
  }

  /** Adding the next observation to its label's cell keeps every cell right. */
  lemma CellsNext(order: seq<string>, cells: map<string, Cell>, obs: seq<Observation>, key: Observation -> string,
                  i: nat)
    requires i < |obs| && CellsHold(order, cells, obs[..i], key)
    ensures var k := key(obs[i]);
            CellsHold(if k in cells then order else order + [k], WithRow(cells, k, obs[i]), obs[..i + 1], key)
  {
    var tag, next := key(obs[i]), WithRow(cells, key(obs[i]), obs[i]);
    TakeNext(obs, i);
    DistinctKeys(obs[..i], key);
    if tag !in cells { AbsentCell(obs[..i], key, tag); }
    forall k | k in next ensures next[k] == CellOf(obs[..i + 1], key)(k) { CellNext(obs, key, i, k); }
  }

  method BuildCells(obs: seq<Observation>, labels: seq<string>, ghost key: Observation -> string)
    returns (order: seq<string>, cells: map<string, Cell>)
    requires |labels| == |obs| && forall i :: 0 <= i < |obs| ==> labels[i] == key(obs[i])
    ensures order == Distinct(obs, key)
    ensures forall k :: k in cells <==> k in order
    ensures forall k :: k in cells ==> cells[k] == CellOf(obs, key)(k)
  {
    order, cells := [], map[];
    var i := 0;
    while i < |obs|
      invariant i <= |obs| && CellsHold(order, cells, obs[..i], key)
    {
      CellsNext(order, cells, obs, key, i);
      var k := labels[i];
      if k !in cells { order, cells := order + [k], cells[k := Cell([], [])]; }
      cells := cells[k := Extended(cells[k], obs[i])];
      i := i + 1;
    }
    assert obs[..i] == obs;
  }

  // ----- one line per stratum, and the estimate -----

  datatype StratumLine = StratumLine(
    key: string, controlInvoices: nat, treatmentInvoices: nat, controlClusters: nat, treatmentClusters: nat,
    delta: real, weight: real)

  function Weight(cell: Cell, treated: nat): real {
    if treated > 0 then |cell.treatment| as real / treated as real else 0.0
  }

  function DeltaOf(cell: Cell): real { ArmMean(cell.treatment) - ArmMean(cell.control) }

  function VarianceOf(cell: Cell): real { ClusteredVariance(cell.treatment) + ClusteredVariance(cell.control) }

  function LineOf(key: string, cell: Cell, treated: nat): StratumLine {
    StratumLine(key, |cell.control|, |cell.treatment|, |Distinct(cell.control, ClusterOf)|,
                |Distinct(cell.treatment, ClusterOf)|, DeltaOf(cell), Weight(cell, treated))
  }

  function Weights(cellOf: string -> Cell, treated: nat): string -> real { k => Weight(cellOf(k), treated) }

  function WeightedDelta(cellOf: string -> Cell, treated: nat): string -> real {
    k => Times(Weight(cellOf(k), treated), DeltaOf(cellOf(k)))
  }

  function WeightedVariance(cellOf: string -> Cell, treated: nat): string -> real {
    k => Times(Times(Weight(cellOf(k), treated), Weight(cellOf(k), treated)), VarianceOf(cellOf(k)))
  }

  /** A stratum's line and its two terms of the estimate. */
  ghost predicate Summarises(key: string, cell: Cell, treated: nat, line: StratumLine, delta: real, variance: real) {
    && line == LineOf(key, cell, treated)
    && delta == Times(Weight(cell, treated), DeltaOf(cell))
    && variance == Times(Times(Weight(cell, treated), Weight(cell, treated)), VarianceOf(cell))
  }

  method SummariseStratum(key: string, cell: Cell, treated: nat)
    returns (line: StratumLine, deltaTerm: real, varianceTerm: real)
    ensures Summarises(key, cell, treated, line, deltaTerm, varianceTerm)
  {
    var meanT := ComputeArmMean(cell.treatment);
    var meanC := ComputeArmMean(cell.control);
    var vT := ClusteredArmVariance(cell.treatment);
    var vC := ClusteredArmVariance(cell.control);
    var w, delta, variance := Weight(cell, treated), meanT - meanC, vT + vC;
    line := StratumLine(key, |cell.control|, |cell.treatment|, |Distinct(cell.control, ClusterOf)|,
                        |Distinct(cell.treatment, ClusterOf)|, delta, w);
    deltaTerm, varianceTerm := Times(w, delta), Times(Times(w, w), variance);
  }

  method SummariseStrata(order: seq<string>, cells: map<string, Cell>, treated: nat,
                         ghost lineOf: string -> StratumLine,
                         ghost deltaOf: string -> real, ghost varianceOf: string -> real)
    returns (lines: seq<StratumLine>, deltaPer: real, varDelta: real)
    requires forall k :: k in order ==>
               k in cells && Summarises(k, cells[k], treated, lineOf(k), deltaOf(k), varianceOf(k))
    ensures lines == Mapped(order, lineOf)
    ensures deltaPer == Total(order, deltaOf) && varDelta == Total(order, varianceOf)
  {
    lines, deltaPer, varDelta := [], 0.0, 0.0;
    var i := 0;
    while i < |order|
      invariant i <= |order| && lines == Mapped(order[..i], lineOf)
      invariant deltaPer == Total(order[..i], deltaOf) && varDelta == Total(order[..i], varianceOf)
    {
      TakeNext(order, i);
      var line, d, v := SummariseStratum(order[i], cells[order[i]], treated);
      lines, deltaPer, varDelta := lines + [line], deltaPer + d, varDelta + v;
      i := i + 1;
    }
    assert order[..i] == order;
  }

  // ----- the strata partition the observations -----

  function ArmUnit(treated: bool): Observation -> real { (o: Observation) => if o.treated == treated then 1.0 else 0.0 }

  function ArmOutcome(treated: bool): Observation -> real {
    (o: Observation) => if o.treated == treated then o.outcome else 0.0
  }

  lemma {:induction false} ArmRowsAddUp(obs: seq<Observation>, key: Observation -> string, tag: string, treated: bool)
    ensures |ArmRows(obs, key, tag, treated)| as real == KeyTotal(obs, key, ArmUnit(treated), tag)
    ensures Total(ArmRows(obs, key, tag, treated), ValueOf) == KeyTotal(obs, key, ArmOutcome(treated), tag)
  {
    if obs != [] {
      var prior, last := ArmRows(obs[..|obs| - 1], key, tag, treated), obs[|obs| - 1];
      ArmRowsAddUp(obs[..|obs| - 1], key, tag, treated);
      if key(last) == tag && last.treated == treated {
        TotalAppend(prior, Row(last.cluster, last.outcome), ValueOf);
      }
    }
  }

  lemma {:induction false} ArmCountTotal(obs: seq<Observation>, treated: bool)
    ensures ArmCount(obs, treated) as real == Total(obs, ArmUnit(treated))
  {
    if obs != [] { ArmCountTotal(obs[..|obs| - 1], treated); }
  }

  function ArmSizes(obs: seq<Observation>, key: Observation -> string, treated: bool): string -> real {
    k => |ArmRows(obs, key, k, treated)| as real
  }

  function ArmTotals(obs: seq<Observation>, key: Observation -> string, treated: bool): string -> real {
    k => Total(ArmRows(obs, key, k, treated), ValueOf)
  }

  /** However strata pool, the cells of an arm hold that arm's invoices and outcomes, each exactly once. */
  lemma StrataPartition(obs: seq<Observation>, key: Observation -> string, treated: bool)
    ensures Total(Distinct(obs, key), ArmSizes(obs, key, treated)) == ArmCount(obs, treated) as real
    ensures Total(Distinct(obs, key), ArmTotals(obs, key, treated)) == Total(obs, ArmOutcome(treated))
  {
    var keys := Distinct(obs, key);
    forall k ensures ArmSizes(obs, key, treated)(k) == KeyTotals(obs, key, ArmUnit(treated))(k)
                  && ArmTotals(obs, key, treated)(k) == KeyTotals(obs, key, ArmOutcome(treated))(k) {
      ArmRowsAddUp(obs, key, k, treated);
    }
    TotalPointwise(keys, ArmSizes(obs, key, treated), KeyTotals(obs, key, ArmUnit(treated)));
    TotalPointwise(keys, ArmTotals(obs, key, treated), KeyTotals(obs, key, ArmOutcome(treated)));
    KeysAddUp(obs, key, ArmUnit(treated));
    KeysAddUp(obs, key, ArmOutcome(treated));
    ArmCountTotal(obs, treated);
  }

  lemma WeightIsShare(obs: seq<Observation>, key: Observation -> string, k: string, n: nat)
    requires n > 0
    ensures Weights(CellOf(obs, key), n)(k) == ArmSizes(obs, key, true)(k) / n as real
  {
  }

  lemma OverItself(n: nat)
    requires n > 0
    ensures n as real / n as real == 1.0
  {
  }

  /** The treatment-share weights of the strata sum to one as soon as any invoice is treated. */
  lemma WeightsSumToOne(obs: seq<Observation>, key: Observation -> string)
    requires ArmCount(obs, true) > 0
    ensures Total(Distinct(obs, key), Weights(CellOf(obs, key), ArmCount(obs, true))) == 1.0
  {
    var n := ArmCount(obs, true);
    StrataPartition(obs, key, true);
    forall k ensures Weights(CellOf(obs, key), n)(k) == ArmSizes(obs, key, true)(k) / n as real {
      WeightIsShare(obs, key, k, n);
    }
    TotalDivided(Distinct(obs, key), ArmSizes(obs, key, true), n as real, Weights(CellOf(obs, key), n));
    OverItself(n);
  }

  // ----- what the estimate is -----

  /** A treated invoice's outcome against the control mean of its own cell; controls contribute nothing. */
  function AgainstControl(obs: seq<Observation>, key: Observation -> string): Observation -> real {
    (o: Observation) => if o.treated then o.outcome - ArmMean(ArmRows(obs, key, key(o), false)) else 0.0
  }

  /** What a cell's treated invoices recovered above the cell's control mean. */
  function LiftOf(cell: Cell): real { Total(cell.treatment, Residual(ArmMean(cell.control))) }

  function CellLift(obs: seq<Observation>, key: Observation -> string): string -> real {
    k => LiftOf(CellOf(obs, key)(k))
  }

  lemma OverTimes(p: real, n: real)
    requires n > 0.0
    ensures (p / n) * n == p
  {
  }

  lemma ShareTimes(w: real, size: real, delta: real, n: real)
    requires n > 0.0 && w * n == size
    ensures w * delta == (size * delta) / n
  {
    assert (w * delta) * n == size * delta;
    OverTimes(size * delta, n);
    SameAfterScaling(w * delta, (size * delta) / n, n);
  }

  /** A share of a mean's distance from a base is a share of the total distance. */
  lemma WeightedMean(w: real, size: real, total: real, lift: real, mean: real, base: real, n: real)
    requires n > 0.0 && w == size / n && size * mean == total && lift == total - size * base
    ensures Times(w, mean - base) == lift / n
  {
    OverTimes(size, n);
    ShareTimes(w, size, mean - base, n);
    Distribute(size, mean, -base);
  }

  lemma WeightTimesDelta(cell: Cell, n: nat)
    requires n > 0
    ensures Times(Weight(cell, n), DeltaOf(cell)) == LiftOf(cell) / n as real
  {
    var rows, base := cell.treatment, ArmMean(cell.control);
    MeanTimesCount(rows);
    ResidualTotal(rows, base);
    WeightedMean(Weight(cell, n), |rows| as real, Total(rows, ValueOf), LiftOf(cell), ArmMean(rows), base, n as real);
  }

  lemma {:induction false} CellLiftIsKeyTotal(obs: seq<Observation>, key: Observation -> string, base: real,
                                              h: Observation -> real, k: string)
    requires forall o :: key(o) == k ==> h(o) == if o.treated then o.outcome - base else 0.0
    ensures KeyTotal(obs, key, h, k) == Total(ArmRows(obs, key, k, true), Residual(base))
  {
    if obs != [] {
      var prior, last := obs[..|obs| - 1], obs[|obs| - 1];
      CellLiftIsKeyTotal(prior, key, base, h, k);
      TotalAppend(ArmRows(prior, key, k, true), Row(last.cluster, last.outcome), Residual(base));
    }
  }

  lemma LiftOfCell(obs: seq<Observation>, key: Observation -> string, k: string)
    ensures LiftOf(CellOf(obs, key)(k)) == KeyTotal(obs, key, AgainstControl(obs, key), k)
  {
    CellLiftIsKeyTotal(obs, key, ArmMean(ArmRows(obs, key, k, false)), AgainstControl(obs, key), k);
  }

  lemma CellLiftsAddUp(obs: seq<Observation>, key: Observation -> string)
    ensures Total(Distinct(obs, key), CellLift(obs, key)) == Total(obs, AgainstControl(obs, key))
  {
    forall k ensures CellLift(obs, key)(k) == KeyTotals(obs, key, AgainstControl(obs, key))(k) {
      LiftOfCell(obs, key, k);
    }
    TotalPointwise(Distinct(obs, key), CellLift(obs, key), KeyTotals(obs, key, AgainstControl(obs, key)));
    KeysAddUp(obs, key, AgainstControl(obs, key));
  }

  /** The estimate is the mean, over treated invoices, of the outcome less the control mean of the invoice's cell. */
  lemma DeltaIsMeanLift(obs: seq<Observation>, key: Observation -> string)
    requires ArmCount(obs, true) > 0
    ensures Total(Distinct(obs, key), WeightedDelta(CellOf(obs, key), ArmCount(obs, true))) ==
            Total(obs, AgainstControl(obs, key)) / ArmCount(obs, true) as real
  {
    var keys, n := Distinct(obs, key), ArmCount(obs, true);
    forall k ensures WeightedDelta(CellOf(obs, key), n)(k) == CellLift(obs, key)(k) / n as real {
      WeightTimesDelta(CellOf(obs, key)(k), n);
    }
    TotalDivided(keys, CellLift(obs, key), n as real, WeightedDelta(CellOf(obs, key), n));
    CellLiftsAddUp(obs, key);
  }

  lemma CellVarianceNonNegative(cell: Cell, n: nat)
    ensures Times(Times(Weight(cell, n), Weight(cell, n)), VarianceOf(cell)) >= 0.0
  {
    VarianceSign(cell.control);
    VarianceSign(cell.treatment);
    var w, v := Weight(cell, n), VarianceOf(cell);
    SquareNonNegative(w);
    Scaled(0.0, v, w * w);
  }

  /** The estimate's variance is never negative, so the guard before its square root never bites. */
  lemma EstimateVarianceNonNegative(keys: seq<string>, cellOf: string -> Cell, n: nat)
    ensures Total(keys, WeightedVariance(cellOf, n)) >= 0.0
  {
    forall k ensures WeightedVariance(cellOf, n)(k) >= 0.0 { CellVarianceNonNegative(cellOf(k), n); }
    TotalNonNegative(keys, WeightedVariance(cellOf, n));
  }

  // ----- the floor -----

  lemma {:induction false} OwnLabelCounts(rows: seq<Observation>, key: Observation -> string, k: string, treated: bool)
    requires forall o :: o in rows ==> (key(o) == k <==> o.stratum == k)
    ensures |ArmRows(rows, key, k, treated)| == ArmCount(Having(rows, StratumOf, k), treated)
  {
    if rows != [] {
      var prior, last := rows[..|rows| - 1], rows[|rows| - 1];
      OwnLabelCounts(prior, key, k, treated);
      var kept := Having(prior, StratumOf, k);
      assert (kept + [last])[..|kept|] == kept;
    }
  }

  lemma LabelCases(obs: seq<Observation>, floor: nat, o: Observation)
    ensures Label(obs, floor)(o) == if MetFloor(Having(obs, StratumOf, o.stratum), floor) then o.stratum else POOLED
  {
    var s := o.stratum;
    assert StratumLabel(obs, floor)(s) == LabelOf(Having(obs, StratumOf, s), floor, s);
    assert Label(obs, floor)(o) == StratumLabel(obs, floor)(s);
  }

  /** Every cell but the pooled one holds at least the floor in each arm. */
  lemma UnpooledClearFloor(obs: seq<Observation>, floor: nat, k: string)
    requires k in Distinct(obs, Label(obs, floor)) && k != POOLED
    ensures |CellOf(obs, Label(obs, floor))(k).control| >= floor
    ensures |CellOf(obs, Label(obs, floor))(k).treatment| >= floor
  {
    var key := Label(obs, floor);
    DistinctKeys(obs, key);
    var o :| o in obs && key(o) == k;
    LabelCases(obs, floor, o);
    forall x | x in obs ensures key(x) == k <==> x.stratum == k { LabelCases(obs, floor, x); }
    OwnLabelCounts(obs, key, k, false);
    OwnLabelCounts(obs, key, k, true);
  }
}
