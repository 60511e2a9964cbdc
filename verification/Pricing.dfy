/** Pricing token counts (internal/pricing/cost.go, internal/pricing/estimate.go). */
module Pricing {
  import opened Int64
  import opened Sums

  /** The largest rate for which 999,999 * rate + 500,000 fits: about 9,223 dollars per million tokens. */
  const MAX_RATE := 9_223_381_260_235

  const RESERVATION_INPUT_OVERHEAD := 1024
  const DEFAULT_CHARS_PER_TOKEN := 4
  const FALLBACK_MAX_TOKENS := 4096

  /** The split computation, in int64 arithmetic: whole millions, then the remainder rounded half up. */
  function Rate(tokens: int, perMillion: int): int {
    if tokens <= 0 || perMillion == 0 then 0 else
    var whole, rem := tokens / 1_000_000, tokens % 1_000_000;
    var cost := Wrap(whole * perMillion);
    if rem > 0 then Wrap(cost + Quotient(Wrap(Wrap(rem * perMillion) + 500_000), 1_000_000)) else cost
  }

  /** What it should compute: the product rounded half up, once, over unbounded integers. */
  function ExactRate(tokens: nat, perMillion: nat): nat {
    (tokens * perMillion + 500_000) / 1_000_000
  }

  // Exactness

  lemma SplitProduct(tokens: nat, perMillion: nat)
    ensures ExactRate(tokens, perMillion)
         == tokens / 1_000_000 * perMillion + (tokens % 1_000_000 * perMillion + 500_000) / 1_000_000
  {
    var whole, rem := tokens / 1_000_000, tokens % 1_000_000;
    assert tokens * perMillion == whole * perMillion * 1_000_000 + rem * perMillion by {
      Distribute(whole, rem, perMillion);
    }
    AddMultiple(rem * perMillion + 500_000, whole * perMillion);
  }

  lemma Distribute(whole: int, rem: int, perMillion: int)
    ensures (whole * 1_000_000 + rem) * perMillion == whole * perMillion * 1_000_000 + rem * perMillion
  {
  }

  lemma AddMultiple(x: nat, k: nat)
    ensures (k * 1_000_000 + x) / 1_000_000 == k + x / 1_000_000
  {
  }

  lemma RemainderFits(rem: nat, perMillion: nat)
    requires rem < 1_000_000 && perMillion <= MAX_RATE
    ensures 0 <= rem * perMillion && rem * perMillion + 500_000 <= MAX_INT64
  {
    Scales(rem, 999_999, perMillion);
    assert 999_999 * perMillion + 500_000 <= 0x7fff_ffff_ffff_ffff;
  }

  lemma Scales(a: nat, b: nat, factor: nat)
    requires a <= b
    ensures a * factor <= b * factor
  {
  }

  /** Up to that rate the computation is the exact charge reduced to an int64. */
  lemma RateWrapsExact(tokens: nat, perMillion: nat)
    requires perMillion <= MAX_RATE
    ensures Rate(tokens, perMillion) == Wrap(ExactRate(tokens, perMillion))
  {
    var whole, rem := tokens / 1_000_000, tokens % 1_000_000;
    SplitProduct(tokens, perMillion);
    RemainderFits(rem, perMillion);
    WrapOfSum(whole * perMillion, (rem * perMillion + 500_000) / 1_000_000);
    if tokens == 0 || perMillion == 0 {
      assert ExactRate(tokens, perMillion) == 0;
    }
  }

  /** Above it even the remainder of a single charge goes wrong, though the charge itself fits. */
  lemma RateFailsAbove(perMillion: nat)
    requires MAX_RATE < perMillion <= MAX_INT64
    ensures Fits(ExactRate(999_999, perMillion))
    ensures Rate(999_999, perMillion) != ExactRate(999_999, perMillion)
  {
    var product := (999_999) * perMillion;
    assert product + 500_000 > MAX_INT64;
    assert ExactRate(999_999, perMillion) >= (MAX_INT64 + 1) / 1_000_000;
    if product > MAX_INT64 {
      assert Wrap(product) != product;
    }
    assert Quotient(Wrap(Wrap(product) + 500_000), 1_000_000) <= MAX_INT64 / 1_000_000;
  }

  /** The rates at which every charge that fits an int64 comes out exact are those up to MAX_RATE, and no others. */
  lemma RateIsExact(perMillion: nat)
    requires perMillion <= MAX_INT64
    ensures (forall tokens: nat :: Fits(ExactRate(tokens, perMillion)) ==>
               Rate(tokens, perMillion) == ExactRate(tokens, perMillion))
       <==> perMillion <= MAX_RATE
  {
    if perMillion <= MAX_RATE {
      forall tokens: nat | Fits(ExactRate(tokens, perMillion))
        ensures Rate(tokens, perMillion) == ExactRate(tokens, perMillion)
      {
        RateWrapsExact(tokens, perMillion);
      }
    } else {
      RateFailsAbove(perMillion);
    }
  }

  lemma ExactRateGrows(tokens: nat, more: nat, perMillion: nat, higher: nat)
    requires tokens <= more && perMillion <= higher
    ensures ExactRate(tokens, perMillion) <= ExactRate(more, higher)
  {
    Scales(tokens, more, perMillion);
    Scales(perMillion, higher, more);
    DivisionGrows(tokens * perMillion + 500_000, more * higher + 500_000);
  }

  lemma DivisionGrows(a: nat, b: nat)
    requires a <= b
    ensures a / 1_000_000 <= b / 1_000_000
  {
  }

  // Rounding

  /** How far a rounded charge is from its product, in millionths of a nanodollar. */
  lemma RoundingError(tokens: nat, perMillion: nat) returns (error: int)
    ensures 1_000_000 * ExactRate(tokens, perMillion) == tokens * perMillion + error
    ensures -500_000 < error <= 500_000
  {
    error := 1_000_000 * ExactRate(tokens, perMillion) - tokens * perMillion;
  }

  function Charged(perMillion: nat): nat -> nat {
    (tokens: nat) => ExactRate(tokens, perMillion)
  }

  function Count(tokens: nat): nat {
    tokens
  }

  lemma {:induction false} PiecesError(pieces: seq<nat>, perMillion: nat) returns (error: int)
    ensures 1_000_000 * Total(pieces, Charged(perMillion)) == Total(pieces, Count) * perMillion + error
    ensures -499_999 * |pieces| <= error <= 500_000 * |pieces|
  {
    hide ExactRate;
    if pieces == [] {
      error := 0;
    } else {
      var n := |pieces| - 1;
      var front := PiecesError(pieces[..n], perMillion);
      var last := RoundingError(pieces[n], perMillion);
      error := front + last;
      DistributeSum(Total(pieces[..n], Count), pieces[n], perMillion);
    }
  }

  lemma DistributeSum(a: nat, b: nat, factor: nat)
    ensures (a + b) * factor == a * factor + b * factor
  {
  }

  lemma ErrorsBound(n: nat, apart: nat, whole: nat, apartError: int, wholeError: int)
    requires 1_000_000 * apart - apartError == 1_000_000 * whole - wholeError
    requires -499_999 * n <= apartError <= 500_000 * n
    requires -500_000 < wholeError <= 500_000
    requires n == 0 ==> whole == 0
    ensures apart - n / 2 <= whole <= apart + n / 2
  {
  }

  /** Charging n pieces apart differs from charging their sum by at most half of n, rounded down. */
  lemma PiecesNearSum(pieces: seq<nat>, perMillion: nat)
    ensures var apart, whole := Total(pieces, Charged(perMillion)), ExactRate(Total(pieces, Count), perMillion);
      apart - |pieces| / 2 <= whole <= apart + |pieces| / 2
  {
    if pieces == [] {
      assert ExactRate(0, perMillion) == 0;
    } else {
      hide ExactRate, Total;
      var apart := PiecesError(pieces, perMillion);
      var whole := RoundingError(Total(pieces, Count), perMillion);
      ErrorsBound(|pieces|, Total(pieces, Charged(perMillion)), ExactRate(Total(pieces, Count), perMillion), apart,
                  whole);
    }
  }

  // Prices

  datatype Rates = Rates(input: nat, cached: nat, write5m: nat, write1h: nat, output: nat)

  /** A resolved price; the price book never holds a negative rate. */
  datatype Price = Price(
    input: nat, cached: nat, write5m: nat, write1h: nat, output: nat,
    threshold: int, longInput: nat, longCached: nat, longWrite: nat, longOutput: nat, defaultMaxTokens: int)

  datatype Counts = Counts(input: int, cached: int, write5m: int, write1h: int, output: int)

  function TotalInput(u: Counts): int {
    u.input + u.cached + u.write5m + u.write1h
  }

  predicate LongTier(p: Price, totalInput: int) {
    p.threshold > 0 && totalInput >= p.threshold
  }

  /** The rates the whole request is charged at. */
  function RatesFor(p: Price, totalInput: int): Rates {
    if LongTier(p, totalInput) then Rates(p.longInput, p.longCached, p.longWrite, p.longWrite, p.longOutput)
    else Rates(p.input, p.cached, p.write5m, p.write1h, p.output)
  }

  /** The long-context rates apply from the threshold on, not only above it. */
  lemma TierStartsAtThreshold(p: Price)
    requires p.threshold > 0
    ensures RatesFor(p, p.threshold) == Rates(p.longInput, p.longCached, p.longWrite, p.longWrite, p.longOutput)
    ensures RatesFor(p, p.threshold - 1) == Rates(p.input, p.cached, p.write5m, p.write1h, p.output)
  {
  }

  function Charge(r: Rates, u: Counts): int {
    Wrap(Rate(u.input, r.input) + Rate(u.cached, r.cached) + Rate(u.write5m, r.write5m)
         + Rate(u.write1h, r.write1h) + Rate(u.output, r.output))
  }

  /** Price.Cost. */
  function Cost(p: Price, u: Counts): int {
    Charge(RatesFor(p, Wrap(TotalInput(u))), u)
  }

  predicate NonNegative(u: Counts) {
    0 <= u.input && 0 <= u.cached && 0 <= u.write5m && 0 <= u.write1h && 0 <= u.output
  }

  function ExactInputCharge(r: Rates, u: Counts): nat
    requires NonNegative(u)
  {
    ExactRate(u.input, r.input) + ExactRate(u.cached, r.cached) + ExactRate(u.write5m, r.write5m)
    + ExactRate(u.write1h, r.write1h)
  }

  function ExactCharge(r: Rates, u: Counts): nat
    requires NonNegative(u)
  {
    ExactInputCharge(r, u) + ExactRate(u.output, r.output)
  }

  predicate RatesFit(r: Rates) {
    r.input <= MAX_RATE && r.cached <= MAX_RATE && r.write5m <= MAX_RATE && r.write1h <= MAX_RATE
      && r.output <= MAX_RATE
  }

  predicate PriceFits(p: Price) {
    && RatesFit(Rates(p.input, p.cached, p.write5m, p.write1h, p.output))
    && RatesFit(Rates(p.longInput, p.longCached, p.longWrite, p.longWrite, p.longOutput))
    && Fits(p.threshold) && Fits(p.defaultMaxTokens)
  }

  function ExactCost(p: Price, u: Counts): nat
    requires NonNegative(u)
  {
    ExactCharge(RatesFor(p, TotalInput(u)), u)
  }

  lemma WrapOfFive(a: int, b: int, c: int, d: int, e: int)
    ensures Wrap(Wrap(a) + Wrap(b) + Wrap(c) + Wrap(d) + Wrap(e)) == Wrap(a + b + c + d + e)
  {
    WrapOfSum(a, Wrap(b) + Wrap(c) + Wrap(d) + Wrap(e));
    WrapOfSum(b, a + Wrap(c) + Wrap(d) + Wrap(e));
    WrapOfSum(c, a + b + Wrap(d) + Wrap(e));
    WrapOfSum(d, a + b + c + Wrap(e));
    WrapOfSum(e, a + b + c + d);
  }

  /** A request is charged exactly whenever, and only when, the exact charge fits an int64. */
  lemma CostIsExact(p: Price, u: Counts)
    requires PriceFits(p) && NonNegative(u) && Fits(TotalInput(u))
    ensures Cost(p, u) == ExactCost(p, u) <==> Fits(ExactCost(p, u))
  {
    hide Rate, ExactRate, Wrap;
    var r := RatesFor(p, TotalInput(u));
    RateWrapsExact(u.input, r.input);
    RateWrapsExact(u.cached, r.cached);
    RateWrapsExact(u.write5m, r.write5m);
    RateWrapsExact(u.write1h, r.write1h);
    RateWrapsExact(u.output, r.output);
    WrapOfFive(ExactRate(u.input, r.input), ExactRate(u.cached, r.cached), ExactRate(u.write5m, r.write5m),
               ExactRate(u.write1h, r.write1h), ExactRate(u.output, r.output));
  }

  // Reservations

  /** What the gateway learns from a request before it is sent. */
  datatype Request = Request(maxTokens: int, promptChars: int, requestBytes: int, noOutput: bool)

  function ReservationInputTokens(requestBytes: int): int {
    Wrap((if requestBytes < 0 then 0 else requestBytes) + RESERVATION_INPUT_OVERHEAD)
  }

  function ReservationTokens(requested: int, p: Price): (tokens: int)
    ensures tokens > 0
  {
    if requested > 0 then requested else if p.defaultMaxTokens > 0 then p.defaultMaxTokens else FALLBACK_MAX_TOKENS
  }

  function EstimateFromChars(chars: int): (tokens: int)
    ensures tokens >= 0 && (tokens == 0 <==> chars <= 0)
  {
    if chars <= 0 then 0 else
    var tokens := Quotient(Wrap(chars + DEFAULT_CHARS_PER_TOKEN - 1), DEFAULT_CHARS_PER_TOKEN);
    if tokens < 1 then 1 else tokens
  }

  /** The counts a request's hold is sized for. */
  function ReservedCounts(p: Price, q: Request): Counts {
    Counts(ReservationInputTokens(q.requestBytes), 0, 0, 0, if q.noOutput then 0 else ReservationTokens(q.maxTokens, p))
  }

  function HoldAmount(p: Price, q: Request): int {
    Cost(p, ReservedCounts(p, q))
  }

  /** The counts a request is charged for when the vendor reported none. */
  function EstimatedCounts(p: Price, q: Request, complete: bool): Counts {
    var output := ReservationTokens(q.maxTokens, p);
    Counts(EstimateFromChars(q.promptChars), 0, 0, 0, if complete then output else Quotient(output, 2))
  }

  /** A hold is sized for the body and 1024 tokens, and for the caller's output limit, the model's or else 4096. */
  lemma ReservedExactly(p: Price, q: Request)
    requires Fits(q.requestBytes + 1024)
    ensures var reserved := ReservedCounts(p, q);
      && reserved.cached == reserved.write5m == reserved.write1h == 0
      && (q.requestBytes >= 0 ==> reserved.input == q.requestBytes + 1024)
      && (q.requestBytes < 0 ==> reserved.input == 1024)
      && (q.noOutput ==> reserved.output == 0)
      && (!q.noOutput && q.maxTokens > 0 ==> reserved.output == q.maxTokens)
      && (!q.noOutput && q.maxTokens <= 0 && p.defaultMaxTokens > 0 ==> reserved.output == p.defaultMaxTokens)
      && (!q.noOutput && q.maxTokens <= 0 && p.defaultMaxTokens <= 0 ==> reserved.output == 4096)
  {
  }

  /**
   * An estimate charges a token for every four characters begun, and the output limit: all of it if the reply was
   * complete, and otherwise half of it, rounded down.
   */
  lemma EstimatedExactly(p: Price, q: Request, complete: bool)
    requires 0 <= q.promptChars && Fits(q.promptChars + 3) && Fits(q.maxTokens) && Fits(p.defaultMaxTokens)
    ensures var u := EstimatedCounts(p, q, complete);
      && u.cached == u.write5m == u.write1h == 0
      && q.promptChars <= 4 * u.input < q.promptChars + 4
      && var limit := ReservedCounts(p, q.(noOutput := false)).output;
      if complete then u.output == limit else limit - 1 <= 2 * u.output <= limit
  {
  }

  /** The reported counts are within what was reserved. */
  predicate WithinCeiling(p: Price, q: Request, u: Counts) {
    var reserved := ReservedCounts(p, q);
    NonNegative(u) && TotalInput(u) <= reserved.input && u.output <= reserved.output
  }

  /** The reserved input count and the hold are int64s, with two nanodollars to spare. */
  predicate HoldFits(p: Price, q: Request) {
    && Fits(q.requestBytes + RESERVATION_INPUT_OVERHEAD) && Fits(q.maxTokens)
    && NonNegative(ReservedCounts(p, q)) && Fits(ExactCost(p, ReservedCounts(p, q)) + 2)
  }

  /** Long-context rates are no lower than the ordinary ones. */
  predicate LongIsDearer(p: Price) {
    p.threshold > 0 ==> p.input <= p.longInput && p.output <= p.longOutput
  }

  /** In each tier nothing on the prompt side costs more than plain input. */
  predicate InputIsDearest(p: Price) {
    && p.cached <= p.input && p.write5m <= p.input && p.write1h <= p.input
    && (p.threshold > 0 ==> p.longCached <= p.longInput && p.longWrite <= p.longInput)
  }

  /** Four prompt-side charges, each at most the input rate, exceed one charge for the ceiling by at most two. */
  lemma InputPieces(r: Rates, u: Counts, ceiling: nat, rate: nat)
    requires NonNegative(u) && TotalInput(u) <= ceiling
    requires r.input <= rate && r.cached <= rate && r.write5m <= rate && r.write1h <= rate
    ensures ExactInputCharge(r, u) <= ExactRate(ceiling, rate) + 2
  {
    hide ExactRate;
    var pieces: seq<nat> := [u.input, u.cached, u.write5m, u.write1h];
    ExactRateGrows(u.input, u.input, r.input, rate);
    ExactRateGrows(u.cached, u.cached, r.cached, rate);
    ExactRateGrows(u.write5m, u.write5m, r.write5m, rate);
    ExactRateGrows(u.write1h, u.write1h, r.write1h, rate);
    TotalOfFour(pieces, Charged(rate));
    TotalOfFour(pieces, Count);
    PiecesNearSum(pieces, rate);
    ExactRateGrows(TotalInput(u), ceiling, rate, rate);
  }

  lemma TotalOfFour(pieces: seq<nat>, weight: nat -> nat)
    requires |pieces| == 4
    ensures Total(pieces, weight) == weight(pieces[0]) + weight(pieces[1]) + weight(pieces[2]) + weight(pieces[3])
  {
    assert pieces == [] + [pieces[0]] + [pieces[1]] + [pieces[2]] + [pieces[3]];
    TotalOfAppend([], pieces[0], weight);
    TotalOfAppend([] + [pieces[0]], pieces[1], weight);
    TotalOfAppend([] + [pieces[0]] + [pieces[1]], pieces[2], weight);
    TotalOfAppend([] + [pieces[0]] + [pieces[1]] + [pieces[2]], pieces[3], weight);
  }

  lemma NoTokens(perMillion: nat)
    ensures ExactRate(0, perMillion) == 0
  {
  }

  /** The prompt is no longer than the body that carried it. */
  predicate PromptInBody(q: Request) {
    q.promptChars <= q.requestBytes || q.promptChars <= 0
  }

  /**
   * A charge estimated for want of reported usage never exceeds the hold of a request that asked for
   * output, whether or not its response completed.
   */
  lemma EstimateWithinHold(p: Price, q: Request, complete: bool)
    requires PriceFits(p) && LongIsDearer(p) && HoldFits(p, q)
    requires !q.noOutput && PromptInBody(q)
    ensures 0 <= Cost(p, EstimatedCounts(p, q, complete)) <= HoldAmount(p, q)
  {
    hide ExactRate, Cost, EstimateFromChars, ReservationTokens, Wrap;
    var reserved, estimate := ReservedCounts(p, q), EstimatedCounts(p, q, complete);
    EstimateIsSmall(q);
    var r, h := RatesFor(p, estimate.input), RatesFor(p, reserved.input);
    ExactRateGrows(estimate.input, reserved.input, r.input, h.input);
    ExactRateGrows(estimate.output, reserved.output, r.output, h.output);
    NothingCached(r, estimate);
    NothingCached(h, reserved);
    CostIsExact(p, reserved);
    CostIsExact(p, estimate);
  }

  lemma EstimateIsSmall(q: Request)
    requires Fits(q.requestBytes + RESERVATION_INPUT_OVERHEAD)
    requires PromptInBody(q)
    ensures EstimateFromChars(q.promptChars) <= ReservationInputTokens(q.requestBytes)
  {
  }

  lemma NothingCached(r: Rates, u: Counts)
    requires NonNegative(u) && u.cached == u.write5m == u.write1h == 0
    ensures ExactCharge(r, u) == ExactRate(u.input, r.input) + ExactRate(u.output, r.output)
  {
    hide ExactRate;
    NoTokens(r.cached);
    NoTokens(r.write5m);
    NoTokens(r.write1h);
  }

  /** Two nanodollars are reached: four odd counts at half a nanodollar a token each round up. */
  lemma BoundIsTight()
    ensures var p := Price(500_000, 500_000, 500_000, 500_000, 0, 0, 0, 0, 0, 0, 0);
      var q, u := Request(0, 0, 0, true), Counts(255, 255, 257, 257, 0);
      WithinCeiling(p, q, u) && LongIsDearer(p) && InputIsDearest(p) && Cost(p, u) == HoldAmount(p, q) + 2
  {
    assert Rate(255, 500_000) == 128 && Rate(257, 500_000) == 129 && Rate(1024, 500_000) == 512;
  }

  lemma FreeRate(tokens: nat)
    ensures ExactRate(tokens, 0) == 0
  {
  }

  lemma WholeMillions(n: nat, perMillion: nat)
    ensures ExactRate(n * 1_000_000, perMillion) == n * perMillion
  {
    Distribute(n, 0, perMillion);
    AddMultiple(500_000, n * perMillion);
  }
}
