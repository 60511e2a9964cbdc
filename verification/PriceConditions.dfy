/**
 * For which prices a hold bounds its settlement, exactly (internal/pricing/cost.go, internal/gateway/record.go). The
 * price is looked up once for the hold and again for the charge.
 */
module PriceConditions {
  import opened Int64
  import opened Pricing
  import opened WorstCase

  // What a hold falls short of

  /** How much more than the hold the counts within its ceilings can cost. */
  function Shortfall(held: Price, charged: Price, q: Request): nat
    requires NonNegative(ReservedCounts(held, q))
  {
    var reserved := ReservedCounts(held, q);
    var hold, worst := ExactCost(held, reserved), Worst(charged, reserved.input, reserved.output);
    if worst > hold then worst - hold else 0
  }

  /** At any two prices no settlement exceeds its hold by more than the shortfall and two, and some reaches it. */
  lemma ShortfallExactly(held: Price, charged: Price, q: Request)
    requires NonNegative(ReservedCounts(held, q))
    ensures var hold, short := ExactCost(held, ReservedCounts(held, q)), Shortfall(held, charged, q);
      && (forall u :: WithinCeiling(held, q, u) ==> ExactCost(charged, u) <= hold + short + 2)
      && (short > 0 ==> exists u :: WithinCeiling(held, q, u) && ExactCost(charged, u) == hold + short)
  {
    hide ExactCost, Worst, ReservedCounts;
    var reserved := ReservedCounts(held, q);
    forall u | WithinCeiling(held, q, u)
      ensures ExactCost(charged, u) <= ExactCost(held, reserved) + Shortfall(held, charged, q) + 2
    {
      WorstBounds(charged, u, reserved.input, reserved.output);
    }
    var u := WorstReached(charged, reserved.input, reserved.output);
    assert WithinCeiling(held, q, u);
  }

  // Prices that fall short of nothing

  /** Nothing is charged at a higher rate than it would be held at. */
  predicate CoversAt(held: Price, charged: Price, total: int) {
    var h, r := RatesFor(held, total), RatesFor(charged, total);
    Dearest(r) <= h.input && r.output <= h.output
  }

  /** The same for every total: between two thresholds the rates do not change. */
  predicate Covers(held: Price, charged: Price) {
    && CoversAt(held, charged, 0)
    && (held.threshold > 0 ==> CoversAt(held, charged, held.threshold))
    && (charged.threshold > 0 ==> CoversAt(held, charged, charged.threshold))
  }

  lemma CoversEverywhere(held: Price, charged: Price, total: int)
    requires Covers(held, charged)
    ensures CoversAt(held, charged, total)
  {
    hide Dearest;
  }

  lemma CoveredDearest(held: Price, charged: Price, total: nat, ceiling: nat, output: nat, limit: nat)
    requires Covers(held, charged) && LongIsDearer(held) && total <= ceiling && output <= limit
    ensures var h := RatesFor(held, ceiling);
      DearestCost(charged, total, output) <= ExactRate(ceiling, h.input) + ExactRate(limit, h.output)
  {
    hide ExactRate, Dearest, Covers;
    CoversEverywhere(held, charged, total);
    var h, r := RatesFor(held, ceiling), RatesFor(charged, total);
    ExactRateGrows(total, ceiling, Dearest(r), h.input);
    ExactRateGrows(output, limit, r.output, h.output);
  }

  lemma CoveredWorst(held: Price, charged: Price, ceiling: nat, output: nat, reserved: Counts)
    requires Covers(held, charged) && LongIsDearer(held) && NonNegative(reserved)
    requires reserved.cached == reserved.write5m == reserved.write1h == 0
    requires ceiling <= reserved.input && output <= reserved.output
    ensures Worst(charged, ceiling, output) <= ExactCost(held, reserved)
  {
    hide ExactRate, DearestCost, Covers, LongIsDearer;
    CoveredDearest(held, charged, ceiling, reserved.input, output, reserved.output);
    CoveredDearest(held, charged, OrdinaryCeiling(charged, ceiling), reserved.input, output, reserved.output);
    NothingCached(RatesFor(held, reserved.input), reserved);
  }

  /** In int64 arithmetic too, a covered settlement costs at most two nanodollars more than the hold. */
  lemma CoveredCost(held: Price, charged: Price, q: Request, u: Counts)
    requires PriceFits(held) && PriceFits(charged) && LongIsDearer(held) && Covers(held, charged)
    requires HoldFits(held, q) && WithinCeiling(held, q, u)
    ensures 0 <= Cost(charged, u) <= HoldAmount(held, q) + 2
  {
    hide ExactCost, Cost, Worst, Covers, PriceFits, LongIsDearer;
    var reserved := ReservedCounts(held, q);
    CoveredWorst(held, charged, reserved.input, reserved.output, reserved);
    WorstInInt64(charged, u, reserved.input, reserved.output);
    CostIsExact(held, reserved);
  }

  lemma CoversItself(p: Price)
    ensures Covers(p, p) <==> InputIsDearest(p)
  {
  }

  /**
   * The reservation dominates the settlement: at one price, counts reported within the ceiling cost at most two
   * nanodollars more than the hold.
   */
  lemma ReservationDominates(p: Price, q: Request, u: Counts)
    requires PriceFits(p) && LongIsDearer(p) && InputIsDearest(p) && HoldFits(p, q) && WithinCeiling(p, q, u)
    ensures 0 <= Cost(p, u) <= HoldAmount(p, q) + 2
  {
    hide PriceFits, LongIsDearer, HoldFits, WithinCeiling, Cost, HoldAmount, Covers, InputIsDearest;
    CoversItself(p);
    CoveredCost(p, p, q, u);
  }

  // Prices that fall short of something

  /** The million-token output limits that make up for a dearer output rate what the hold has for input. */
  function OutputMillions(hold: nat, heldRate: nat, chargedRate: nat): (n: nat)
    requires heldRate < chargedRate
    ensures n * chargedRate > hold + 2 + n * heldRate
  {
    var excess := chargedRate - heldRate;
    var n := (hold + 2) / excess + 1;
    Divides(hold + 2, excess);
    DistributeSum(heldRate, excess, n);
    n
  }

  lemma Divides(x: nat, d: nat)
    requires d > 0
    ensures (x / d + 1) * d > x
  {
    assert x == x / d * d + x % d;
  }

  predicate InputShows(held: Price, charged: Price, n: nat) {
    var h, r := RatesFor(held, n), RatesFor(charged, n);
    n * (Dearest(r) - h.input) >= 3_000_000 && Fits(ExactRate(n, Dearest(r)))
  }

  predicate OutputShows(held: Price, charged: Price, n: nat) {
    var h, r := RatesFor(held, n), RatesFor(charged, n);
    h.output < r.output
    && var millions := OutputMillions(ExactRate(n, h.input), h.output, r.output);
    Fits(millions * 1_000_000) && Fits(ExactRate(n, r.input) + millions * r.output)
  }

  /** A dearer rate shows in a request with n prompt-side tokens: by three nanodollars at least, within an int64. */
  predicate Shows(held: Price, charged: Price, n: nat) {
    1024 <= n && Fits(n) && (InputShows(held, charged, n) || OutputShows(held, charged, n))
  }

  predicate Overruns(held: Price, charged: Price, q: Request, u: Counts) {
    HoldFits(held, q) && WithinCeiling(held, q, u) && Cost(charged, u) > HoldAmount(held, q) + 2
  }

  lemma ThreeApart(n: nat, rate: nat, dearer: nat)
    requires n * (dearer - rate) >= 3_000_000
    ensures ExactRate(n, dearer) >= ExactRate(n, rate) + 3
  {
    assert n * dearer == n * rate + n * (dearer - rate);
    AddMultiple(n * rate + 500_000, 3);
    DivisionGrows(3 * 1_000_000 + (n * rate + 500_000), n * dearer + 500_000);
  }

  lemma DearerInputOverruns(held: Price, charged: Price, n: nat)
    requires PriceFits(held) && PriceFits(charged) && 1024 <= n && Fits(n) && InputShows(held, charged, n)
    ensures Overruns(held, charged, Request(0, 0, n - 1024, true), AllDearest(RatesFor(charged, n), n, 0))
  {
    hide ExactRate, Cost, Wrap, Dearest, AllDearest, PriceFits;
    var q, u := Request(0, 0, n - 1024, true), AllDearest(RatesFor(charged, n), n, 0);
    var h, r := RatesFor(held, n), RatesFor(charged, n);
    var reserved := ReservedCounts(held, q);
    assert reserved == Counts(n, 0, 0, 0, 0) by {
      FittingWrap(n);
    }
    ThreeApart(n, h.input, Dearest(r));
    CostOfAllDearest(r, n, 0);
    NothingCached(h, reserved);
    NoTokens(h.output);
    NoTokens(r.output);
    CostIsExact(held, reserved);
    CostIsExact(charged, u);
  }

  lemma FittingWrap(n: int)
    requires Fits(n)
    ensures Wrap(n) == n
  {
  }

  lemma DearerOutputOverruns(held: Price, charged: Price, n: nat)
    requires PriceFits(held) && PriceFits(charged) && 1024 <= n && Fits(n) && OutputShows(held, charged, n)
    ensures exists q, u :: Overruns(held, charged, q, u)
  {
    hide ExactRate, Cost, Wrap, OutputMillions, PriceFits;
    var h, r := RatesFor(held, n), RatesFor(charged, n);
    var millions := OutputMillions(ExactRate(n, h.input), h.output, r.output);
    var q, u := Request(millions * 1_000_000, 0, n - 1024, false), Counts(n, 0, 0, 0, millions * 1_000_000);
    var reserved := ReservedCounts(held, q);
    assert reserved == u by {
      FittingWrap(n);
      SomeMillions(millions, h.output, r.output);
    }
    NothingCached(h, u);
    NothingCached(r, u);
    WholeMillions(millions, h.output);
    WholeMillions(millions, r.output);
    CostIsExact(held, u);
    CostIsExact(charged, u);
    assert Overruns(held, charged, q, u);
  }

  lemma SomeMillions(n: nat, heldRate: nat, chargedRate: nat)
    requires n * chargedRate > 2 + n * heldRate
    ensures n * 1_000_000 > 0
  {
  }

  /**
   * The settlement bound between two prices, for all requests: it holds exactly when nothing is charged at a higher
   * rate than it would be held at, unless that shows in no request at all.
   */
  lemma TwoPricesExactly(held: Price, charged: Price)
    requires PriceFits(held) && PriceFits(charged) && LongIsDearer(held)
    requires Covers(held, charged) || exists n: nat :: Shows(held, charged, n)
    ensures (forall q, u :: HoldFits(held, q) && WithinCeiling(held, q, u) ==>
               Cost(charged, u) <= HoldAmount(held, q) + 2)
       <==> Covers(held, charged)
  {
    hide PriceFits, LongIsDearer, HoldFits, WithinCeiling, Cost, HoldAmount, Covers, InputShows, OutputShows;
    if Covers(held, charged) {
      forall q, u | HoldFits(held, q) && WithinCeiling(held, q, u)
        ensures Cost(charged, u) <= HoldAmount(held, q) + 2
      {
        CoveredCost(held, charged, q, u);
      }
    } else {
      var n: nat :| Shows(held, charged, n);
      if InputShows(held, charged, n) {
        DearerInputOverruns(held, charged, n);
      } else {
        DearerOutputOverruns(held, charged, n);
      }
      var q, u :| Overruns(held, charged, q, u);
    }
  }

  /** A billion tokens. */
  const MAX_THRESHOLD := 1_000_000_000

  lemma ShowsInMany(held: Price, charged: Price, n: nat)
    requires PriceFits(charged) && 3_000_000 <= n <= MAX_THRESHOLD + 3_000_000
    requires Dearest(RatesFor(charged, n)) > RatesFor(held, n).input
    ensures Shows(held, charged, n)
  {
    hide ExactRate;
    var h, r := RatesFor(held, n), RatesFor(charged, n);
    Scales(1, Dearest(r) - h.input, n);
    ModestCharge(n, Dearest(r));
  }

  lemma ModestCharge(n: nat, rate: nat)
    requires n <= 1_003_000_000 && rate <= MAX_RATE
    ensures Fits(ExactRate(n, rate))
  {
    Scales(n, 1_003_000_000, rate);
    DivisionGrows(n * rate + 500_000, 1_003_000_000 * rate + 500_000);
  }

  /** At ninety dollars per million and less. */
  predicate Modest(r: Rates) {
    Dearest(r) <= 90_000_000_000 && r.output <= 90_000_000_000
  }

  /** Between two such prices without a long-context tier every excess shows, however small. */
  lemma PlainPricesShow(held: Price, charged: Price)
    requires held.threshold <= 0 && charged.threshold <= 0 && PriceFits(charged)
    requires Modest(RatesFor(held, 0)) && Modest(RatesFor(charged, 0))
    ensures Covers(held, charged) || exists n: nat :: Shows(held, charged, n)
  {
    hide PriceFits, Shows;
    var h, r := RatesFor(held, 0), RatesFor(charged, 0);
    if Dearest(r) > h.input {
      ShowsInMany(held, charged, 3_000_000);
    } else if r.output > h.output {
      ModestOutputShows(held, charged);
    }
  }

  lemma ModestOutputShows(held: Price, charged: Price)
    requires held.threshold <= 0 && charged.threshold <= 0
    requires Modest(RatesFor(held, 0)) && Modest(RatesFor(charged, 0)) && held.output < charged.output
    ensures Shows(held, charged, 1024)
  {
    hide ExactRate, OutputMillions;
    SmallCharge(held.input);
    SmallCharge(charged.input);
    var hold := ExactRate(1024, held.input);
    var n := OutputMillions(hold, held.output, charged.output);
    FewMillions(hold, held.output, charged.output);
    Scales(n, 92_160_003, charged.output);
  }

  lemma SmallCharge(rate: nat)
    requires rate <= 90_000_000_000
    ensures ExactRate(1024, rate) <= 92_160_000
  {
    DivisionGrows(1024 * rate + 500_000, 1024 * 90_000_000_000 + 500_000);
  }

  lemma FewMillions(hold: nat, heldRate: nat, chargedRate: nat)
    requires heldRate < chargedRate
    ensures var n := OutputMillions(hold, heldRate, chargedRate);
      n <= hold + 3 && n * (chargedRate - heldRate) <= hold + 2 + (chargedRate - heldRate)
  {
    var x, d := hold + 2, chargedRate - heldRate;
    assert x == x / d * d + x % d;
    Scales(1, d, x / d);
  }

  // One price for both

  lemma ShowsBelowThreshold(p: Price)
    requires PriceFits(p) && 1024 < p.threshold <= MAX_THRESHOLD
    requires (p.threshold - 1) * (Dearest(RatesFor(p, 0)) - p.input) >= 3_000_000
    ensures Shows(p, p, p.threshold - 1)
  {
    hide ExactRate;
    ModestCharge(p.threshold - 1, Dearest(RatesFor(p, 0)));
  }

  /** A dearer kind of input shows: in the tier without end, or by three nanodollars just below the threshold. */
  predicate DearerShows(p: Price) {
    || p.threshold <= 0 || !Dearer(RatesFor(p, 0)) || Dearer(RatesFor(p, p.threshold))
    || (p.threshold > 1024 && (p.threshold - 1) * (Dearest(RatesFor(p, 0)) - p.input) >= 3_000_000)
  }

  /** Something on the prompt side costs more than plain input. */
  predicate Dearer(r: Rates) {
    Dearest(r) > r.input
  }

  /**
   * At one price, settlements within the ceilings stay within two nanodollars of the hold, for all requests, exactly
   * when in each tier nothing on the prompt side is dearer than input.
   */
  lemma DominatesExactly(p: Price)
    requires PriceFits(p) && p.threshold <= MAX_THRESHOLD && LongIsDearer(p) && DearerShows(p)
    ensures (forall q, u :: HoldFits(p, q) && WithinCeiling(p, q, u) ==> Cost(p, u) <= HoldAmount(p, q) + 2)
       <==> InputIsDearest(p)
  {
    hide HoldFits, WithinCeiling, Cost, HoldAmount, PriceFits, LongIsDearer, Shows;
    CoversItself(p);
    if !InputIsDearest(p) {
      if p.threshold <= 0 {
        ShowsInMany(p, p, 3_000_000);
      } else if Dearer(RatesFor(p, p.threshold)) {
        ShowsInMany(p, p, p.threshold + 3_000_000);
      } else {
        ShowsBelowThreshold(p);
      }
    }
    TwoPricesExactly(p, p);
  }

  /** The price of gpt-5.6-sol: cache writes cost a quarter more than input in both of its tiers. */
  const GPT_5_6_SOL := Price(
    5_000_000_000, 500_000_000, 6_250_000_000, 6_250_000_000, 30_000_000_000,
    272_001, 10_000_000_000, 1_000_000_000, 12_500_000_000, 45_000_000_000, 4096)

  /** A published price at which a settlement within the ceilings overruns its hold. */
  lemma PublishedPriceOverruns()
    ensures exists q, u :: Overruns(GPT_5_6_SOL, GPT_5_6_SOL, q, u)
  {
    hide HoldFits, WithinCeiling, Cost, HoldAmount;
    var p := GPT_5_6_SOL;
    DominatesExactly(p);
    var q, u :| HoldFits(p, q) && WithinCeiling(p, q, u) && Cost(p, u) > HoldAmount(p, q) + 2;
    assert Overruns(p, p, q, u);
  }

  // Requests without output

  /** No tier that a request can reach charges for output. */
  predicate OutputIsFree(p: Price) {
    p.output == 0 && (p.threshold > 0 ==> p.longOutput == 0)
  }

  /** The smallest long prompt is held at nine thousand dollars or less, which an int64 output limit can exceed. */
  predicate OrdinaryTier(p: Price) {
    p.threshold > 0 ==>
      && p.threshold <= 1_000_000_000_000_000_000
      && ExactRate(PromptOf(p.threshold) + 1024, p.longInput) <= 9_000_000_000_000
  }

  /**
   * A request that asked for no output reserves none but is still charged for some when its usage goes
   * unreported: the estimate stays within every such hold exactly when output is free.
   */
  lemma NoOutputEstimateExactly(p: Price)
    requires PriceFits(p) && LongIsDearer(p) && OrdinaryTier(p)
    ensures (forall q, complete: bool :: HoldFits(p, q) && q.noOutput && PromptInBody(q) ==>
               Cost(p, EstimatedCounts(p, q, complete)) <= HoldAmount(p, q))
       <==> OutputIsFree(p)
  {
    hide HoldFits, Cost, HoldAmount, EstimatedCounts, PriceFits, PromptInBody, LongIsDearer, OutputIsFree, OrdinaryTier;
    if OutputIsFree(p) {
      forall q, complete: bool | HoldFits(p, q) && q.noOutput && PromptInBody(q)
        ensures Cost(p, EstimatedCounts(p, q, complete)) <= HoldAmount(p, q)
      {
        FreeOutput(p, q, complete);
      }
    } else {
      var q := PaidOutputOverruns(p);
    }
  }

  lemma FreeOutput(p: Price, q: Request, complete: bool)
    requires PriceFits(p) && LongIsDearer(p) && OutputIsFree(p) && HoldFits(p, q) && q.noOutput && PromptInBody(q)
    ensures Cost(p, EstimatedCounts(p, q, complete)) <= HoldAmount(p, q)
  {
    hide ExactRate, Cost, EstimateFromChars, ReservationTokens, Wrap;
    var reserved, u := ReservedCounts(p, q), EstimatedCounts(p, q, complete);
    EstimateIsSmall(q);
    var r, h := RatesFor(p, u.input), RatesFor(p, reserved.input);
    ExactRateGrows(u.input, reserved.input, r.input, h.input);
    NothingCached(r, u);
    NothingCached(h, reserved);
    FreeRate(u.output);
    FreeRate(reserved.output);
    CostIsExact(p, u);
    CostIsExact(p, reserved);
  }

  /** A prompt whose estimate is `tokens`, in a body of just its size. */
  function PromptOf(tokens: nat): int {
    if tokens == 0 then 0 else 4 * tokens - 3
  }

  lemma PromptEstimate(tokens: nat)
    requires tokens <= 1_000_000_000_000_000_000
    ensures EstimateFromChars(PromptOf(tokens)) == tokens
    ensures ReservationInputTokens(PromptOf(tokens)) == PromptOf(tokens) + 1024
  {
  }

  lemma SmallHold(rate: nat)
    requires rate <= MAX_RATE
    ensures ExactRate(1024, rate) <= 9_000_000_000_000
  {
    DivisionGrows(1024 * rate + 500_000, 1024 * MAX_RATE + 500_000);
  }

  lemma PaidOutputOverruns(p: Price) returns (q: Request)
    requires PriceFits(p) && LongIsDearer(p) && OrdinaryTier(p) && !OutputIsFree(p)
    ensures HoldFits(p, q) && q.noOutput && PromptInBody(q)
    ensures Cost(p, EstimatedCounts(p, q, true)) > HoldAmount(p, q)
  {
    var tokens := if p.output > 0 then 0 else p.threshold;
    var reserve := PromptOf(tokens) + 1024;
    var r, h := RatesFor(p, tokens), RatesFor(p, reserve);
    PromptEstimate(tokens);
    SmallHold(h.input);
    hide ExactRate, Cost, Charge, Wrap, PromptOf, EstimateFromChars, OutputMillions;
    var hold := ExactRate(reserve, h.input);
    var n := OutputMillions(hold, 0, r.output);
    FewMillions(hold, 0, r.output);
    q := Request(n * 1_000_000, PromptOf(tokens), PromptOf(tokens), true);
    PaidOutput(p, q, tokens, reserve, n);
  }

  lemma PaidOutput(p: Price, q: Request, tokens: nat, reserve: nat, n: nat)
    requires PriceFits(p) && LongIsDearer(p) && tokens <= reserve && q.noOutput && PromptInBody(q)
    requires q.maxTokens == n * 1_000_000 && 0 < n <= 9_000_000_000_003 && Fits(reserve)
    requires EstimateFromChars(q.promptChars) == tokens && ReservationInputTokens(q.requestBytes) == reserve
    requires Fits(q.requestBytes + RESERVATION_INPUT_OVERHEAD)
    requires var hold, output := ExactRate(reserve, RatesFor(p, reserve).input), RatesFor(p, tokens).output;
      hold <= 9_000_000_000_000 && hold + 2 < n * output <= hold + 2 + output
    ensures HoldFits(p, q) && Cost(p, EstimatedCounts(p, q, true)) > HoldAmount(p, q)
  {
    hide ExactRate, Cost, Charge, Wrap, EstimateFromChars, ReservationInputTokens;
    var u, reserved := EstimatedCounts(p, q, true), ReservedCounts(p, q);
    var r, h := RatesFor(p, tokens), RatesFor(p, reserve);
    assert u == Counts(tokens, 0, 0, 0, n * 1_000_000) && reserved == Counts(reserve, 0, 0, 0, 0);
    NothingCached(r, u);
    NothingCached(h, reserved);
    NoTokens(h.output);
    WholeMillions(n, r.output);
    ExactRateGrows(tokens, reserve, r.input, h.input);
    CostIsExact(p, u);
    CostIsExact(p, reserved);
  }
}
