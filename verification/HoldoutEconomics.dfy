/** The credit for recovery forgone on the held-out group, and what is billed after it. */
module HoldoutEconomics {
  import opened RealArithmetic

  datatype Economics = Economics(cost: int, credit: int, netBilled: int)

  function MaxInt(a: int, b: int): int { if a > b then a else b }

  function MinInt(a: int, b: int): int { if a < b then a else b }

  /** Held-out invoices at fraction h of the same population. */
  function HeldOut(treated: nat, fraction: real): real {
    var h := if fraction < 0.0 then 0.0 else if fraction > 0.99 then 0.99 else fraction;
    if h > 0.0 then treated as real * (h / (1.0 - h)) else 0.0
  }

  function EconomicsOf(grossFee: int, lift: real, treated: nat, fraction: real): Economics {
    var cost := MaxInt(0, Round(NonNegative(lift) * HeldOut(treated, fraction)));
    var credit := MinInt(MaxInt(0, grossFee), cost);
    Economics(cost, credit, MaxInt(0, grossFee - credit))
  }

  lemma NetSplit(grossFee: int, cost: int)
    requires cost >= 0
    ensures var credit := MinInt(MaxInt(0, grossFee), cost);
            && 0 <= credit <= cost && MaxInt(0, grossFee - credit) + credit == MaxInt(0, grossFee)
            && (cost <= grossFee ==> MaxInt(0, grossFee - credit) + cost == grossFee)
            && (MaxInt(0, grossFee - credit) == 0 <==> grossFee <= cost)
  {
  }

  /**
   * A positive fee splits into credit and net bill; a negative one is neither billed nor refunded. Up to the fee, net
   * bill and forgone recovery together cost the merchant exactly the fee; beyond it, nothing is billed.
   */
  lemma NetSplitsFee(grossFee: int, lift: real, treated: nat, fraction: real)
    ensures var e := EconomicsOf(grossFee, lift, treated, fraction);
            && 0 <= e.credit <= e.cost && 0 <= e.netBilled && e.netBilled + e.credit == MaxInt(0, grossFee)
            && (e.cost <= grossFee ==> e.netBilled + e.cost == grossFee)
            && (e.netBilled == 0 <==> grossFee <= e.cost)
  {
    NetSplit(grossFee, MaxInt(0, Round(NonNegative(lift) * HeldOut(treated, fraction))));
  }
}
