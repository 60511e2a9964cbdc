/** The most that counts within given ceilings can cost, and what a hold falls short of it. */
module WorstCase {
  import opened Int64
  import opened Pricing

  function Max(a: nat, b: nat): nat {
    if a < b then b else a
  }

  /** The dearest rate on the prompt side. */
  function Dearest(r: Rates): nat {
    Max(Max(r.input, r.cached), Max(r.write5m, r.write1h))
  }

  /** Counts with every prompt-side token of the dearest kind. */
  function AllDearest(r: Rates, total: nat, output: nat): (u: Counts)
    ensures NonNegative(u) && TotalInput(u) == total && u.output == output
  {
    if Dearest(r) == r.input then Counts(total, 0, 0, 0, output)
    else if Dearest(r) == r.cached then Counts(0, total, 0, 0, output)
    else if Dearest(r) == r.write5m then Counts(0, 0, total, 0, output)
    else Counts(0, 0, 0, total, output)
  }

  /** What such counts cost. */
  function DearestCost(p: Price, total: nat, output: nat): nat {
    ExactRate(total, Dearest(RatesFor(p, total))) + ExactRate(output, RatesFor(p, total).output)
  }

  /** The most prompt-side tokens up to a ceiling that are still charged at the ordinary rates. */
  function OrdinaryCeiling(p: Price, ceiling: nat): (total: nat)
    ensures total <= ceiling && !LongTier(p, total) && (total < ceiling ==> LongTier(p, total + 1))
  {
    if LongTier(p, ceiling) then p.threshold - 1 else ceiling
  }

  /** The dearest counts within the ceilings lie at the top of one of the two tiers. */
  function Worst(p: Price, ceiling: nat, output: nat): nat {
    Max(DearestCost(p, ceiling, output), DearestCost(p, OrdinaryCeiling(p, ceiling), output))
  }

  predicate Within(u: Counts, ceiling: nat, output: nat) {
    NonNegative(u) && TotalInput(u) <= ceiling && u.output <= output
  }

  lemma CostOfAllDearest(r: Rates, total: nat, output: nat)
    ensures ExactCharge(r, AllDearest(r, total, output)) == ExactRate(total, Dearest(r)) + ExactRate(output, r.output)
  {
    hide ExactRate;
    NoTokens(r.input);
    NoTokens(r.cached);
    NoTokens(r.write5m);
    NoTokens(r.write1h);
  }

  /** Within one tier nothing costs more than the dearest counts at its top, rounding aside. */
  lemma TierBound(p: Price, u: Counts, top: nat, output: nat)
    requires Within(u, top, output) && RatesFor(p, TotalInput(u)) == RatesFor(p, top)
    ensures ExactCost(p, u) <= DearestCost(p, top, output) + 2
  {
    hide ExactRate, RatesFor;
    var r := RatesFor(p, top);
    InputPieces(r, u, top, Dearest(r));
    ExactRateGrows(u.output, output, r.output, r.output);
  }

  lemma WorstBounds(p: Price, u: Counts, ceiling: nat, output: nat)
    requires Within(u, ceiling, output)
    ensures ExactCost(p, u) <= Worst(p, ceiling, output) + 2
  {
    hide ExactCost, DearestCost;
    TierBound(p, u, if LongTier(p, TotalInput(u)) then ceiling else OrdinaryCeiling(p, ceiling), output);
  }

  lemma WorstReached(p: Price, ceiling: nat, output: nat) returns (u: Counts)
    ensures Within(u, ceiling, output) && ExactCost(p, u) == Worst(p, ceiling, output)
  {
    hide ExactRate, ExactCharge, AllDearest;
    var top := OrdinaryCeiling(p, ceiling);
    var total := if DearestCost(p, ceiling, output) < DearestCost(p, top, output) then top else ceiling;
    u := AllDearest(RatesFor(p, total), total, output);
    CostOfAllDearest(RatesFor(p, total), total, output);
  }

  /** At any price the worst case is reached, and exceeded by no more than the rounding of its four pieces. */
  lemma WorstExactly(p: Price, ceiling: nat, output: nat)
    ensures forall u :: Within(u, ceiling, output) ==> ExactCost(p, u) <= Worst(p, ceiling, output) + 2
    ensures exists u :: Within(u, ceiling, output) && ExactCost(p, u) == Worst(p, ceiling, output)
  {
    hide ExactCost, Worst;
    forall u | Within(u, ceiling, output)
      ensures ExactCost(p, u) <= Worst(p, ceiling, output) + 2
    {
      WorstBounds(p, u, ceiling, output);
    }
    var u := WorstReached(p, ceiling, output);
  }

  /** While the worst case fits an int64, so does every cost, and is computed exactly. */
  lemma WorstInInt64(p: Price, u: Counts, ceiling: nat, output: nat)
    requires PriceFits(p) && Within(u, ceiling, output) && Fits(ceiling) && Fits(Worst(p, ceiling, output) + 2)
    ensures 0 <= Cost(p, u) == ExactCost(p, u) <= Worst(p, ceiling, output) + 2
  {
    hide ExactCost, Cost, Worst;
    WorstBounds(p, u, ceiling, output);
    CostIsExact(p, u);
  }
}
