/** Monthly billing: the watermark read back from the ledger, one run over all merchants, and any number of runs. */
module BillingRun {
  import opened HoldoutEconomics
  import opened Observations
  import opened RealArithmetic
  import opened RecoveryEvents
  import opened Sums
  import opened Wrappers
  import Cuped
  import U = Uplift

  // ----- the watermark -----

  /** The latest statement seen so far: its date, and the bound it proved. */
  datatype Mark = Mark(at: Option<int>, cum: int)

  predicate IsStatement(e: Event, merchant: string) {
    e.kind == UpliftStatement && e.merchant == merchant && e.at.Some? && e.lowerDollarsCum.Some?
  }

  predicate NotBefore(t: int, at: Option<int>) { at.None? || t >= at.value }

  function MarkOf(entries: seq<Event>, merchant: string): Mark {
    if entries == [] then Mark(None, 0)
    else
      var prior, e := MarkOf(entries[..|entries| - 1], merchant), entries[|entries| - 1];
      if IsStatement(e, merchant) && NotBefore(e.at.value, prior.at) then Mark(e.at, e.lowerDollarsCum.value) else prior
  }

  function Watermark(entries: seq<Event>, merchant: string): int { MarkOf(entries, merchant).cum }

  method PriorBilledFromLedger(entries: seq<Event>, merchant: string) returns (w: int)
    ensures w == Watermark(entries, merchant)
  {
    var latestAt: Option<int> := None;
    w := 0;
    var i := 0;
    while i < |entries|
      invariant i <= |entries| && Mark(latestAt, w) == MarkOf(entries[..i], merchant)
    {
      TakeNext(entries, i);
      var e := entries[i];
      if IsStatement(e, merchant) && NotBefore(e.at.value, latestAt) {
        latestAt, w := e.at, e.lowerDollarsCum.value;
      }
      i := i + 1;
    }
    assert entries[..i] == entries;
  }

  /** Position i holds the merchant's statement with the latest date, the last one listed among equals. */
  ghost predicate IsLatest(entries: seq<Event>, merchant: string, i: int) {
    && 0 <= i < |entries| && IsStatement(entries[i], merchant)
    && forall j :: 0 <= j < |entries| && IsStatement(entries[j], merchant) ==>
         entries[j].at.value < entries[i].at.value || (entries[j].at.value == entries[i].at.value && j <= i)
  }

  /** The watermark is the bound of the latest statement, and zero for a merchant never billed. */
  lemma {:induction false} WatermarkIsLatest(entries: seq<Event>, merchant: string) returns (i: int)
    ensures i >= 0 ==> IsLatest(entries, merchant, i)
    ensures i >= 0 ==> MarkOf(entries, merchant) == Mark(entries[i].at, entries[i].lowerDollarsCum.value)
    ensures i < 0 ==> MarkOf(entries, merchant) == Mark(None, 0)
    ensures i < 0 ==> forall j :: 0 <= j < |entries| ==> !IsStatement(entries[j], merchant)
  {
    if entries == [] {
      i := -1;
    } else {
      var n := |entries| - 1;
      i := WatermarkIsLatest(entries[..n], merchant);
      assert forall j :: 0 <= j < n ==> entries[..n][j] == entries[j];
      if IsStatement(entries[n], merchant) && (i < 0 || entries[n].at.value >= entries[i].at.value) { i := n; }
    }
  }

  // ----- one run -----

  datatype Bill = Bill(merchant: string, uplift: U.BillableUplift, economics: Economics)

  function MerchantOf(e: Event): string { e.merchant }

  function StatementOf(b: Bill, now: int): Event {
    Event(b.merchant, UpliftStatement, Some(now), "", 0.0, "", "", "", "", "", Some(b.uplift.lowerDollarsCum))
  }

  function StatementsOf(bills: seq<Bill>, now: int): seq<Event> {
    if bills == [] then [] else StatementsOf(bills[..|bills| - 1], now) + [StatementOf(bills[|bills| - 1], now)]
  }

  /** b is what the ledger supports for its merchant: estimate, price over the watermark, holdout credit. */
  ghost predicate Supported(b: Bill, entries: seq<Event>, period: Period, config: U.Config, stats: U.Statistics) {
    && U.Estimates(U.Prepared(ObservationsOf(entries, b.merchant, period), config), config, stats, b.uplift)
    && U.Prices(config, stats, Watermark(entries, b.merchant), b.uplift)
  }

  function EconomicsFor(r: U.BillableUplift, fraction: real): Economics {
    EconomicsOf(r.fee, r.deltaPer, r.treatedInvoices, fraction)
  }

  ghost function BillCheck(entries: seq<Event>, period: Period, config: U.Config, stats: U.Statistics,
                           fraction: string -> real): (Bill, string) -> bool {
    (b: Bill, m: string) =>
      && b.merchant == m && Supported(b, entries, period, config, stats)
      && b.economics == EconomicsFor(b.uplift, fraction(m))
  }

  ghost predicate EachBilled(bills: seq<Bill>, merchants: seq<string>, ok: (Bill, string) -> bool) {
    && |bills| == |merchants|
    && forall i {:trigger ok(bills[i], merchants[i])} :: 0 <= i < |bills| ==> ok(bills[i], merchants[i])
  }

  /** One supported bill per merchant, in order. */
  ghost predicate BilledRun(bills: seq<Bill>, merchants: seq<string>, entries: seq<Event>, period: Period,
                            config: U.Config, stats: U.Statistics, fraction: string -> real) {
    EachBilled(bills, merchants, BillCheck(entries, period, config, stats, fraction))
  }

  function FeeTotal(bills: seq<Bill>): int {
    if bills == [] then 0 else FeeTotal(bills[..|bills| - 1]) + bills[|bills| - 1].uplift.fee
  }

  function NetTotal(bills: seq<Bill>): int {
    if bills == [] then 0 else NetTotal(bills[..|bills| - 1]) + bills[|bills| - 1].economics.netBilled
  }

  lemma CheckHolds(b: Bill, m: string, entries: seq<Event>, period: Period, config: U.Config, stats: U.Statistics,
                   fraction: string -> real)
    requires b.merchant == m && Supported(b, entries, period, config, stats)
    requires b.economics == EconomicsFor(b.uplift, fraction(m))
    ensures BillCheck(entries, period, config, stats, fraction)(b, m)
  {
    var check := BillCheck(entries, period, config, stats, fraction);
    assert check(b, m) == (b.merchant == m && Supported(b, entries, period, config, stats)
                           && b.economics == EconomicsFor(b.uplift, fraction(m)));
  }

  method BillMerchant(entries: seq<Event>, merchant: string, period: Period, config: U.Config, stats: U.Statistics,
                      fraction: string -> real) returns (r: Result<Bill, U.ConfigError>)
    requires Cuped.IsSquareRoot(stats.root)
    ensures r.Err? ==> U.Misconfigured(config, r.error)
    ensures r.Ok? ==> BillCheck(entries, period, config, stats, fraction)(r.value, merchant)
  {
    var observations := ReconstructObservations(entries, merchant, period);
    var prior := PriorBilledFromLedger(entries, merchant);
    var uplift := U.ComputeBillableUplift(observations, config, stats, prior);
    if uplift.Err? { return Err(uplift.error); }
    var b := Bill(merchant, uplift.value, EconomicsFor(uplift.value, fraction(merchant)));
    CheckHolds(b, merchant, entries, period, config, stats, fraction);
    r := Ok(b);
  }

  lemma BilledNext(bills: seq<Bill>, b: Bill, merchants: seq<string>, ok: (Bill, string) -> bool)
    requires |bills| < |merchants| && EachBilled(bills, merchants[..|bills|], ok) && ok(b, merchants[|bills|])
    ensures EachBilled(bills + [b], merchants[..|bills| + 1], ok)
  {
    var n := |bills|;
    forall i | 0 <= i < n ensures ok((bills + [b])[i], merchants[..n + 1][i]) {
      assert ok(bills[i], merchants[..n][i]);
    }
  }

  /** The bill of the next merchant in order. */
  method BillNext(bills: seq<Bill>, merchants: seq<string>, entries: seq<Event>, period: Period, config: U.Config,
                  stats: U.Statistics, fraction: string -> real) returns (r: Result<Bill, U.ConfigError>)
    requires Cuped.IsSquareRoot(stats.root) && |bills| < |merchants|
    requires BilledRun(bills, merchants[..|bills|], entries, period, config, stats, fraction)
    ensures r.Err? ==> U.Misconfigured(config, r.error)
    ensures r.Ok? ==> BilledRun(bills + [r.value], merchants[..|bills| + 1], entries, period, config, stats, fraction)
  {
    r := BillMerchant(entries, merchants[|bills|], period, config, stats, fraction);
    if r.Ok? { BilledNext(bills, r.value, merchants, BillCheck(entries, period, config, stats, fraction)); }
  }

  datatype Run = Run(bills: seq<Bill>, statements: seq<Event>, totalFee: int, totalNetBilled: int)

  lemma BillsNext(bills: seq<Bill>, b: Bill, now: int)
    ensures StatementsOf(bills + [b], now) == StatementsOf(bills, now) + [StatementOf(b, now)]
    ensures FeeTotal(bills + [b]) == FeeTotal(bills) + b.uplift.fee
    ensures NetTotal(bills + [b]) == NetTotal(bills) + b.economics.netBilled
  {
    assert (bills + [b])[..|bills|] == bills;
  }

  /** Every merchant of the ledger snapshot, in order; statements are appended as they are computed. */
  method RunBilling(entries: seq<Event>, now: int, period: Period, config: U.Config, stats: U.Statistics,
                    fraction: string -> real) returns (r: Result<Run, U.ConfigError>)
    requires Cuped.IsSquareRoot(stats.root)
    ensures r.Ok? ==> BilledRun(r.value.bills, Distinct(entries, MerchantOf), entries, period, config, stats, fraction)
    ensures r.Ok? ==> r.value.statements == StatementsOf(r.value.bills, now)
    ensures r.Ok? ==> r.value.totalFee == FeeTotal(r.value.bills) && r.value.totalNetBilled == NetTotal(r.value.bills)
    ensures r.Err? ==> U.Misconfigured(config, r.error)
  {
    var merchants, groups := GroupBy(entries, MerchantOf);
    var bills: seq<Bill>, statements: seq<Event>, totalFee, totalNet := [], [], 0, 0;
    while |bills| < |merchants|
      invariant |bills| <= |merchants|
      invariant BilledRun(bills, merchants[..|bills|], entries, period, config, stats, fraction)
      invariant statements == StatementsOf(bills, now) && totalFee == FeeTotal(bills) && totalNet == NetTotal(bills)
    {
      var bill := BillNext(bills, merchants, entries, period, config, stats, fraction);
      if bill.Err? { return Err(bill.error); }
      var b := bill.value;
      BillsNext(bills, b, now);
      statements, totalFee := statements + [StatementOf(b, now)], totalFee + b.uplift.fee;
      bills, totalNet := bills + [b], totalNet + b.economics.netBilled;
    }
    assert merchants[..|bills|] == merchants;
    r := Ok(Run(bills, statements, totalFee, totalNet));
  }

  lemma BillAt(bills: seq<Bill>, merchants: seq<string>, entries: seq<Event>, period: Period, config: U.Config,
               stats: U.Statistics, fraction: string -> real, i: nat)
    requires BilledRun(bills, merchants, entries, period, config, stats, fraction) && i < |bills|
    ensures |bills| == |merchants| && bills[i].merchant == merchants[i]
    ensures Supported(bills[i], entries, period, config, stats)
    ensures bills[i].economics == EconomicsFor(bills[i].uplift, fraction(merchants[i]))
  {
    assert BillCheck(entries, period, config, stats, fraction)(bills[i], merchants[i]);
  }
}
