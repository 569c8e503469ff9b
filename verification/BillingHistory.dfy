/** Any number of billing runs between any other ledger entries: what the fees add up to. */
module BillingHistory {
  import opened BillingRun
  import opened HoldoutEconomics
  import opened Observations
  import opened RealArithmetic
  import opened RecoveryEvents
  import opened Sums
  import opened Wrappers
  import U = Uplift

  datatype Happening = Ran(now: int, bills: seq<Bill>) | Recorded(entry: Event)

  function Appended(ledger: seq<Event>, h: Happening): seq<Event> {
    match h
    case Ran(now, bills) => ledger + StatementsOf(bills, now)
    case Recorded(e) => ledger + [e]
  }

  function LedgerAfter(start: seq<Event>, hs: seq<Happening>): seq<Event> {
    if hs == [] then start else Appended(LedgerAfter(start, hs[..|hs| - 1]), hs[|hs| - 1])
  }

  ghost predicate OneBillEach(bills: seq<Bill>) {
    forall i, j :: 0 <= i < j < |bills| ==> bills[i].merchant != bills[j].merchant
  }

  /** The bill charges for the increment over the watermark, and splits the fee with the holdout credit. */
  predicate Priced(b: Bill, watermark: int, rate: real) {
    && b.uplift.billableIncrement == b.uplift.lowerDollarsCum - watermark
    && b.uplift.fee == U.FeeFor(rate, b.uplift.billable, b.uplift.billableIncrement)
    && b.economics.netBilled + b.economics.credit == MaxInt(0, b.uplift.fee)
  }

  /** A run no earlier than any statement already recorded; nothing but runs records statements. */
  ghost predicate Possible(ledger: seq<Event>, h: Happening, rate: real) {
    match h
    case Ran(now, bills) =>
      && OneBillEach(bills) && (forall m :: NotBefore(now, MarkOf(ledger, m).at))
      && (forall i :: 0 <= i < |bills| ==> Priced(bills[i], Watermark(ledger, bills[i].merchant), rate))
    case Recorded(e) => e.kind != UpliftStatement
  }

  ghost predicate Feasible(start: seq<Event>, hs: seq<Happening>, rate: real) {
    hs != [] ==>
      && Feasible(start, hs[..|hs| - 1], rate)
      && Possible(LedgerAfter(start, hs[..|hs| - 1]), hs[|hs| - 1], rate)
  }

  ghost predicate BillsInOrder(bills: seq<Bill>, merchants: seq<string>) {
    |bills| == |merchants| && forall i :: 0 <= i < |bills| ==> bills[i].merchant == merchants[i]
  }

  lemma BilledInOrder(bills: seq<Bill>, merchants: seq<string>, entries: seq<Event>, period: Period, config: U.Config,
                      stats: U.Statistics, fraction: string -> real)
    requires BilledRun(bills, merchants, entries, period, config, stats, fraction)
    ensures BillsInOrder(bills, merchants)
  {
    forall i | 0 <= i < |bills| ensures bills[i].merchant == merchants[i] {
      BillAt(bills, merchants, entries, period, config, stats, fraction, i);
    }
  }

  lemma SupportedIsPriced(b: Bill, ledger: seq<Event>, period: Period, config: U.Config, stats: U.Statistics, h: real)
    requires Supported(b, ledger, period, config, stats) && b.economics == EconomicsFor(b.uplift, h)
    ensures Priced(b, Watermark(ledger, b.merchant), config.feeRate)
  {
    NetSplitsFee(b.uplift.fee, b.uplift.deltaPer, b.uplift.treatedInvoices, h);
  }

  lemma BillIsPricedAt(ledger: seq<Event>, bills: seq<Bill>, period: Period, config: U.Config,
                       stats: U.Statistics, fraction: string -> real, i: nat)
    requires BilledRun(bills, Distinct(ledger, MerchantOf), ledger, period, config, stats, fraction) && i < |bills|
    ensures Priced(bills[i], Watermark(ledger, bills[i].merchant), config.feeRate)
  {
    BillAt(bills, Distinct(ledger, MerchantOf), ledger, period, config, stats, fraction, i);
    SupportedIsPriced(bills[i], ledger, period, config, stats, fraction(bills[i].merchant));
  }

  /** What the runner produces is possible. */
  lemma RunIsPossible(ledger: seq<Event>, now: int, bills: seq<Bill>, period: Period, config: U.Config,
                      stats: U.Statistics, fraction: string -> real)
    requires BilledRun(bills, Distinct(ledger, MerchantOf), ledger, period, config, stats, fraction)
    requires forall m :: NotBefore(now, MarkOf(ledger, m).at)
    ensures Possible(ledger, Ran(now, bills), config.feeRate)
  {
    DistinctNoRepeats(ledger, MerchantOf);
    BilledInOrder(bills, Distinct(ledger, MerchantOf), ledger, period, config, stats, fraction);
    forall i | 0 <= i < |bills| ensures Priced(bills[i], Watermark(ledger, bills[i].merchant), config.feeRate) {
      BillIsPricedAt(ledger, bills, period, config, stats, fraction, i);
    }
  }

  // ----- one merchant's totals -----

  /**
   * credit is the holdout credit; owed is what negative fees came to, recorded and never paid out; forfeited
   * is by how much gated runs raised the bound, stated and never billed.
   */
  datatype Account = Account(
    runs: nat, increments: int, fees: int, net: int, credit: int, owed: int, forfeited: int)

  const NOTHING: Account := Account(0, 0, 0, 0, 0, 0, 0)

  /** The increment a bill states and does not charge for: a gate is closed and the bound has grown. */
  function Forfeit(b: Bill): int {
    if b.uplift.billable then 0 else MaxInt(0, b.uplift.billableIncrement)
  }

  function Add(a: Account, b: Bill): Account {
    Account(a.runs + 1, a.increments + b.uplift.billableIncrement, a.fees + b.uplift.fee,
            a.net + b.economics.netBilled, a.credit + b.economics.credit, a.owed + MaxInt(0, -b.uplift.fee),
            a.forfeited + Forfeit(b))
  }

  /** The merchant's bill in a run, if it was billed. */
  function BillFor(bills: seq<Bill>, merchant: string): Option<Bill> {
    if bills == [] then None
    else if bills[|bills| - 1].merchant == merchant then Some(bills[|bills| - 1])
    else BillFor(bills[..|bills| - 1], merchant)
  }

  function AccountOf(hs: seq<Happening>, merchant: string): Account {
    if hs == [] then NOTHING
    else
      var prior, h := AccountOf(hs[..|hs| - 1], merchant), hs[|hs| - 1];
      if h.Ran? && BillFor(h.bills, merchant).Some? then Add(prior, BillFor(h.bills, merchant).value) else prior
  }

  lemma {:induction false} BillForMember(bills: seq<Bill>, merchant: string)
    ensures BillFor(bills, merchant).Some? ==>
              BillFor(bills, merchant).value in bills && BillFor(bills, merchant).value.merchant == merchant
    ensures BillFor(bills, merchant).None? ==> forall b :: b in bills ==> b.merchant != merchant
  {
    if bills != [] { BillForMember(bills[..|bills| - 1], merchant); }
  }

  /** A statement no earlier than the mark moves it; any other entry leaves it. */
  lemma MarkNext(entries: seq<Event>, e: Event, merchant: string)
    ensures MarkOf(entries + [e], merchant) ==
            if IsStatement(e, merchant) && NotBefore(e.at.value, MarkOf(entries, merchant).at)
            then Mark(e.at, e.lowerDollarsCum.value) else MarkOf(entries, merchant)
  {
    assert (entries + [e])[..|entries|] == entries;
  }

  /** After a run, the watermark is the bound just stated; merchants not billed keep theirs. */
  lemma {:induction false} RunMovesWatermark(ledger: seq<Event>, bills: seq<Bill>, now: int, merchant: string)
    requires NotBefore(now, MarkOf(ledger, merchant).at)
    ensures MarkOf(ledger + StatementsOf(bills, now), merchant) ==
            match BillFor(bills, merchant)
            case None => MarkOf(ledger, merchant)
            case Some(b) => Mark(Some(now), b.uplift.lowerDollarsCum)
  {
    if bills == [] {
      assert ledger + StatementsOf(bills, now) == ledger;
    } else {
      var earlier, last := bills[..|bills| - 1], bills[|bills| - 1];
      RunMovesWatermark(ledger, earlier, now, merchant);
      MarkNext(ledger + StatementsOf(earlier, now), StatementOf(last, now), merchant);
      assert ledger + StatementsOf(bills, now) == (ledger + StatementsOf(earlier, now)) + [StatementOf(last, now)];
    }
  }

  lemma RecordKeepsWatermark(ledger: seq<Event>, e: Event, merchant: string)
    requires e.kind != UpliftStatement
    ensures MarkOf(ledger + [e], merchant) == MarkOf(ledger, merchant)
  {
    MarkNext(ledger, e, merchant);
  }

  lemma {:induction false} PrefixFeasible(start: seq<Event>, hs: seq<Happening>, rate: real)
    requires Feasible(start, hs, rate) && hs != []
    ensures Feasible(start, hs[..|hs| - 1], rate)
    ensures Possible(LedgerAfter(start, hs[..|hs| - 1]), hs[|hs| - 1], rate)
  {
  }

  /** The bill of a possible run is priced over the watermark. */
  lemma BillIsPriced(ledger: seq<Event>, h: Happening, rate: real, merchant: string)
    requires Possible(ledger, h, rate) && h.Ran? && BillFor(h.bills, merchant).Some?
    ensures Priced(BillFor(h.bills, merchant).value, Watermark(ledger, merchant), rate)
  {
    BillForMember(h.bills, merchant);
    var i :| 0 <= i < |h.bills| && h.bills[i] == BillFor(h.bills, merchant).value;
    assert Priced(h.bills[i], Watermark(ledger, h.bills[i].merchant), rate);
  }

  /** Telescoping: however many runs, the increments stated add up to the movement of the watermark. */
  lemma {:induction false} IncrementsTelescope(start: seq<Event>, hs: seq<Happening>, rate: real, merchant: string)
    requires Feasible(start, hs, rate)
    ensures AccountOf(hs, merchant).increments
            == Watermark(LedgerAfter(start, hs), merchant) - Watermark(start, merchant)
  {
    if hs != [] {
      var n := |hs| - 1;
      var ledger, h := LedgerAfter(start, hs[..n]), hs[n];
      PrefixFeasible(start, hs, rate);
      IncrementsTelescope(start, hs[..n], rate, merchant);
      match h {
        case Recorded(e) => RecordKeepsWatermark(ledger, e, merchant);
        case Ran(now, bills) =>
          RunMovesWatermark(ledger, bills, now, merchant);
          if BillFor(bills, merchant).Some? { BillIsPriced(ledger, h, rate, merchant); }
      }
    }
  }

  /** Fees at most, or at least, the rate times an increment, within half a unit per run. */
  predicate AtMost(fees: int, rate: real, increments: int, runs: nat) {
    fees as real <= rate * increments as real + runs as real * 0.5
  }

  predicate AtLeast(fees: int, rate: real, increments: int, runs: nat) {
    fees as real >= rate * increments as real - runs as real * 0.5
  }

  /** Fees follow the increments on both sides. */
  predicate Follows(fees: int, rate: real, increments: int, runs: nat) {
    AtMost(fees, rate, increments, runs) && AtLeast(fees, rate, increments, runs)
  }

  /** One fee follows its increment, less what a closed gate forfeits. */
  lemma FeeFollows(rate: real, billable: bool, increment: int)
    requires rate >= 0.0
    ensures Follows(U.FeeFor(rate, billable, increment), rate,
                    increment - if billable then 0 else MaxInt(0, increment), 1)
  {
    U.ProductSign(rate, increment);
  }

  lemma AddFollows(fees: int, fee: int, increments: int, increment: int, rate: real, runs: nat)
    requires Follows(fees, rate, increments, runs) && Follows(fee, rate, increment, 1)
    ensures Follows(fees + fee, rate, increments + increment, runs + 1)
  {
    Distribute(rate, increments as real, increment as real);
  }

  /** One more bill keeps an account's fees on its increments less what it forfeits. */
  lemma BillFollows(a: Account, b: Bill, watermark: int, rate: real)
    requires Priced(b, watermark, rate) && rate >= 0.0
    requires Follows(a.fees, rate, a.increments - a.forfeited, a.runs)
    ensures var c := Add(a, b); Follows(c.fees, rate, c.increments - c.forfeited, c.runs)
  {
    var fee, increment := b.uplift.fee, b.uplift.billableIncrement;
    FeeFollows(rate, b.uplift.billable, increment);
    AddFollows(a.fees, fee, a.increments - a.forfeited, increment - Forfeit(b), rate, a.runs);
    assert Add(a, b).increments - Add(a, b).forfeited == (a.increments - a.forfeited) + (increment - Forfeit(b));
  }

  lemma {:induction false} FeesFollow(start: seq<Event>, hs: seq<Happening>, rate: real, merchant: string)
    requires Feasible(start, hs, rate) && rate >= 0.0
    ensures var a := AccountOf(hs, merchant); Follows(a.fees, rate, a.increments - a.forfeited, a.runs)
  {
    if hs != [] {
      var n := |hs| - 1;
      var ledger, h := LedgerAfter(start, hs[..n]), hs[n];
      PrefixFeasible(start, hs, rate);
      FeesFollow(start, hs[..n], rate, merchant);
      if h.Ran? && BillFor(h.bills, merchant).Some? {
        BillIsPriced(ledger, h, rate, merchant);
        BillFollows(AccountOf(hs[..n], merchant), BillFor(h.bills, merchant).value, Watermark(ledger, merchant), rate);
      }
    }
  }

  /** A run that bills this merchant has its gates open or does not raise the bound over the watermark. */
  predicate ForfeitsNothing(ledger: seq<Event>, h: Happening, merchant: string) {
    h.Ran? && BillFor(h.bills, merchant).Some? ==>
      var b := BillFor(h.bills, merchant).value;
      b.uplift.billable || b.uplift.lowerDollarsCum <= Watermark(ledger, merchant)
  }

  /** No gated run raises the bound over what the runs before it had stated. */
  ghost predicate NothingForfeited(start: seq<Event>, hs: seq<Happening>, merchant: string) {
    hs != [] ==>
      && NothingForfeited(start, hs[..|hs| - 1], merchant)
      && ForfeitsNothing(LedgerAfter(start, hs[..|hs| - 1]), hs[|hs| - 1], merchant)
  }

  lemma {:induction false} ForfeitedSign(start: seq<Event>, hs: seq<Happening>, rate: real, merchant: string)
    requires Feasible(start, hs, rate)
    ensures var a := AccountOf(hs, merchant);
            a.forfeited >= 0 && (a.forfeited == 0 <==> NothingForfeited(start, hs, merchant))
  {
    if hs != [] {
      var n := |hs| - 1;
      var ledger, h := LedgerAfter(start, hs[..n]), hs[n];
      PrefixFeasible(start, hs, rate);
      ForfeitedSign(start, hs[..n], rate, merchant);
      if h.Ran? && BillFor(h.bills, merchant).Some? { BillIsPriced(ledger, h, rate, merchant); }
    }
  }

  lemma LessIncrement(fees: int, rate: real, increments: int, less: int, runs: nat)
    requires AtMost(fees, rate, increments - less, runs) && less >= 0 && rate >= 0.0
    ensures AtMost(fees, rate, increments, runs)
  {
    Distribute(rate, (increments - less) as real, less as real);
    U.ProductSign(rate, less);
  }

  /**
   * Over any n runs with non-decreasing dates the gross fees are the rate times the movement of the proven bound less
   * what gated runs forfeited, within half a unit of rounding per run on both sides. So nothing is ever billed twice,
   * and the whole movement is billed exactly when no gated run raised the bound.
   */
  lemma GrossFeesBounded(start: seq<Event>, hs: seq<Happening>, rate: real, merchant: string)
    requires Feasible(start, hs, rate) && rate >= 0.0
    ensures var a, moved := AccountOf(hs, merchant),
                            Watermark(LedgerAfter(start, hs), merchant) - Watermark(start, merchant);
            && Follows(a.fees, rate, moved - a.forfeited, a.runs) && AtMost(a.fees, rate, moved, a.runs)
            && a.forfeited >= 0 && (a.forfeited == 0 <==> NothingForfeited(start, hs, merchant))
  {
    var a := AccountOf(hs, merchant);
    IncrementsTelescope(start, hs, rate, merchant);
    FeesFollow(start, hs, rate, merchant);
    ForfeitedSign(start, hs, rate, merchant);
    LessIncrement(a.fees, rate, a.increments, a.forfeited, a.runs);
  }

  // ----- a run repeated -----

  lemma {:induction false} StatementsAreStatements(bills: seq<Bill>, now: int)
    ensures |StatementsOf(bills, now)| == |bills|
    ensures forall i :: 0 <= i < |bills| ==> StatementsOf(bills, now)[i] == StatementOf(bills[i], now)
  {
    if bills != [] { StatementsAreStatements(bills[..|bills| - 1], now); }
  }

  /** Only merchants already in the ledger are stated, so a run adds no merchant. */
  lemma BilledMerchantsKnown(ledger: seq<Event>, now: int, bills: seq<Bill>, m: string)
    requires BillsInOrder(bills, Distinct(ledger, MerchantOf))
    requires m in Distinct(ledger + StatementsOf(bills, now), MerchantOf)
    ensures BillFor(bills, m).Some?
  {
    var merchants := Distinct(ledger, MerchantOf);
    StatementsAreStatements(bills, now);
    DistinctKeys(ledger, MerchantOf);
    DistinctKeys(ledger + StatementsOf(bills, now), MerchantOf);
    var x :| x in ledger + StatementsOf(bills, now) && MerchantOf(x) == m;
    assert m in merchants by {
      if x in ledger {
        assert HasKey(ledger, MerchantOf, m);
      } else {
        var i :| 0 <= i < |bills| && StatementsOf(bills, now)[i] == x;
        assert m == merchants[i];
      }
    }
    var i :| 0 <= i < |merchants| && merchants[i] == m;
    BillForMember(bills, m);
    assert bills[i] in bills;
  }

  /** The bill that a repeated run starts from: it set the watermark, and the evidence has not moved. */
  lemma FirstBill(ledger: seq<Event>, now: int, bills: seq<Bill>, period: Period, m: string) returns (first: Bill)
    requires NotBefore(now, MarkOf(ledger, m).at) && BillsInOrder(bills, Distinct(ledger, MerchantOf))
    requires m in Distinct(ledger + StatementsOf(bills, now), MerchantOf)
    ensures first in bills && first.merchant == m
    ensures Watermark(ledger + StatementsOf(bills, now), m) == first.uplift.lowerDollarsCum
    ensures ObservationsOf(ledger + StatementsOf(bills, now), m, period) == ObservationsOf(ledger, m, period)
  {
    BilledMerchantsKnown(ledger, now, bills, m);
    BillForMember(bills, m);
    first := BillFor(bills, m).value;
    RunMovesWatermark(ledger, bills, now, m);
    StatementsAreStatements(bills, now);
    StatementsAreNotEvidence(ledger, StatementsOf(bills, now), m, period);
  }

  lemma BilledAt(bills: seq<Bill>, merchants: seq<string>, entries: seq<Event>, period: Period, config: U.Config,
                 stats: U.Statistics, fraction: string -> real, b: Bill)
    requires BilledRun(bills, merchants, entries, period, config, stats, fraction) && b in bills
    ensures b.merchant in merchants && Supported(b, entries, period, config, stats)
    ensures b.economics == EconomicsFor(b.uplift, fraction(b.merchant))
  {
    var j :| 0 <= j < |bills| && bills[j] == b;
    BillAt(bills, merchants, entries, period, config, stats, fraction, j);
    assert merchants[j] in merchants;
  }

  lemma SameBound(first: Bill, b: Bill, ledger: seq<Event>, next: seq<Event>, period: Period, config: U.Config,
                  stats: U.Statistics)
    requires first.merchant == b.merchant
    requires Supported(first, ledger, period, config, stats) && Supported(b, next, period, config, stats)
    requires ObservationsOf(next, b.merchant, period) == ObservationsOf(ledger, b.merchant, period)
    ensures first.uplift.lowerDollarsCum == b.uplift.lowerDollarsCum
  {
    U.BoundIsDetermined(U.Prepared(ObservationsOf(ledger, b.merchant, period), config), config, stats, first.uplift,
                        b.uplift, Watermark(ledger, b.merchant), Watermark(next, b.merchant));
  }

  lemma SameBoundNoFee(first: Bill, b: Bill, ledger: seq<Event>, next: seq<Event>, period: Period, config: U.Config,
                       stats: U.Statistics, h: real)
    requires first.merchant == b.merchant && 0.0 <= config.feeRate <= 1.0
    requires Supported(first, ledger, period, config, stats) && Supported(b, next, period, config, stats)
    requires ObservationsOf(next, b.merchant, period) == ObservationsOf(ledger, b.merchant, period)
    requires Watermark(next, b.merchant) == first.uplift.lowerDollarsCum && b.economics == EconomicsFor(b.uplift, h)
    ensures b.uplift.billableIncrement == 0 && b.uplift.fee == 0 && b.economics.netBilled == 0
  {
    SameBound(first, b, ledger, next, period, config, stats);
    U.FeeDirection(config, stats, Watermark(next, b.merchant), b.uplift);
    NetSplitsFee(b.uplift.fee, b.uplift.deltaPer, b.uplift.treatedInvoices, h);
  }

  lemma RepeatedBill(ledger: seq<Event>, now: int, bills: seq<Bill>, again: seq<Bill>, period: Period,
                     config: U.Config, stats: U.Statistics, fraction: string -> real, b: Bill)
    requires forall m :: NotBefore(now, MarkOf(ledger, m).at)
    requires BilledRun(bills, Distinct(ledger, MerchantOf), ledger, period, config, stats, fraction)
    requires var next := ledger + StatementsOf(bills, now);
             BilledRun(again, Distinct(next, MerchantOf), next, period, config, stats, fraction)
    requires 0.0 <= config.feeRate <= 1.0 && b in again
    ensures b.uplift.billableIncrement == 0 && b.uplift.fee == 0 && b.economics.netBilled == 0
  {
    var next := ledger + StatementsOf(bills, now);
    BilledAt(again, Distinct(next, MerchantOf), next, period, config, stats, fraction, b);
    BilledInOrder(bills, Distinct(ledger, MerchantOf), ledger, period, config, stats, fraction);
    var first := FirstBill(ledger, now, bills, period, b.merchant);
    BilledAt(bills, Distinct(ledger, MerchantOf), ledger, period, config, stats, fraction, first);
    SameBoundNoFee(first, b, ledger, next, period, config, stats, fraction(b.merchant));
  }

  /** Running again with no new events bills every merchant exactly nothing. */
  lemma RerunBillsNothing(ledger: seq<Event>, now: int, later: int, bills: seq<Bill>, again: seq<Bill>, period: Period,
                          config: U.Config, stats: U.Statistics, fraction: string -> real)
    requires forall m :: NotBefore(now, MarkOf(ledger, m).at)
    requires BilledRun(bills, Distinct(ledger, MerchantOf), ledger, period, config, stats, fraction)
    requires var next := ledger + StatementsOf(bills, now);
             BilledRun(again, Distinct(next, MerchantOf), next, period, config, stats, fraction)
    requires 0.0 <= config.feeRate <= 1.0
    ensures forall b :: b in again ==>
              b.uplift.billableIncrement == 0 && b.uplift.fee == 0 && b.economics.netBilled == 0
  {
    forall b | b in again
      ensures b.uplift.billableIncrement == 0 && b.uplift.fee == 0 && b.economics.netBilled == 0 {
      RepeatedBill(ledger, now, bills, again, period, config, stats, fraction, b);
    }
  }

  // ----- what is collected -----

  /** A run that bills this merchant takes the bound no more than half a unit of fee below the watermark. */
  predicate HoldsBound(ledger: seq<Event>, h: Happening, rate: real, merchant: string) {
    h.Ran? && BillFor(h.bills, merchant).Some? ==>
      rate * (BillFor(h.bills, merchant).value.uplift.lowerDollarsCum - Watermark(ledger, merchant)) as real >= -0.5
  }

  /** Every run holds the bound that the runs before it had stated. */
  ghost predicate BoundsHold(start: seq<Event>, hs: seq<Happening>, rate: real, merchant: string) {
    hs != [] ==>
      && BoundsHold(start, hs[..|hs| - 1], rate, merchant)
      && HoldsBound(LedgerAfter(start, hs[..|hs| - 1]), hs[|hs| - 1], rate, merchant)
  }

  /** Rounding aside, a fee is negative exactly when the bound fell, gated or not. */
  lemma NegativeFee(rate: real, billable: bool, increment: int)
    requires rate >= 0.0
    ensures U.FeeFor(rate, billable, increment) < 0 <==> rate * increment as real < -0.5
  {
    U.ProductSign(rate, increment);
  }

  /**
   * What is collected, with the holdout credit, is the gross fees plus everything owed back; it is exactly
   * the gross fees if and only if no run took the bound below the watermark by more than rounding.
   */
  lemma {:induction false} NetMatchesFees(start: seq<Event>, hs: seq<Happening>, rate: real, merchant: string)
    requires Feasible(start, hs, rate) && rate >= 0.0
    ensures var a := AccountOf(hs, merchant);
            && a.net + a.credit == a.fees + a.owed && a.owed >= 0
            && (a.owed == 0 <==> BoundsHold(start, hs, rate, merchant))
  {
    if hs != [] {
      var n := |hs| - 1;
      var ledger, h := LedgerAfter(start, hs[..n]), hs[n];
      PrefixFeasible(start, hs, rate);
      NetMatchesFees(start, hs[..n], rate, merchant);
      if h.Ran? && BillFor(h.bills, merchant).Some? {
        BillIsPriced(ledger, h, rate, merchant);
        var b := BillFor(h.bills, merchant).value;
        NegativeFee(rate, b.uplift.billable, b.uplift.billableIncrement);
      }
    }
  }

  /**
   * What is collected, less what is owed back, is the rate times the movement of the proven bound less what gated
   * runs forfeited, within half a unit per run on both sides.
   */
  lemma NetBilledBounded(start: seq<Event>, hs: seq<Happening>, rate: real, merchant: string)
    requires Feasible(start, hs, rate) && rate >= 0.0
    ensures var a, moved := AccountOf(hs, merchant),
                            Watermark(LedgerAfter(start, hs), merchant) - Watermark(start, merchant);
            && Follows(a.net + a.credit - a.owed, rate, moved - a.forfeited, a.runs)
            && AtMost(a.net + a.credit - a.owed, rate, moved, a.runs)
  {
    NetMatchesFees(start, hs, rate, merchant);
    GrossFeesBounded(start, hs, rate, merchant);
  }

  lemma Extended(start: seq<Event>, hs: seq<Happening>, h: Happening, rate: real, merchant: string)
    ensures Feasible(start, hs + [h], rate) <==> Feasible(start, hs, rate) && Possible(LedgerAfter(start, hs), h, rate)
    ensures LedgerAfter(start, hs + [h]) == Appended(LedgerAfter(start, hs), h)
    ensures AccountOf(hs + [h], merchant) ==
            if h.Ran? && BillFor(h.bills, merchant).Some?
            then Add(AccountOf(hs, merchant), BillFor(h.bills, merchant).value) else AccountOf(hs, merchant)
  {
    assert (hs + [h])[..|hs|] == hs;
  }
}
