/** What reaches the ledger of a request, from its outcome to its row (internal/gateway/record.go, proxy.go). */
module Recorded {
  import opened Int64
  import opened Tables
  import opened Histories
  import opened Gateway
  import opened Sealing
  import Billing
  import Effects
  import Ledger
  import P = Pricing

  /** The counts a reply is charged for: the vendor's, or else what was sent and what was allowed. */
  ghost predicate AreCharged(u: P.Counts, obs: Observation, price: P.Price) {
    if obs.usageReported then u == obs.usage
    else
      && u.cached == u.write5m == u.write1h == 0 && u.input == P.EstimateFromChars(obs.request.promptChars)
      && var limit := P.ReservationTokens(obs.request.maxTokens, price);
      if obs.complete then u.output == limit else u.output == limit / 2
  }

  /** Each count under its own unit, and no other quantity. */
  ghost predicate Itemizes(usage: Billing.Usage, u: P.Counts) {
    && Billing.At(usage, "input_tokens") == u.input && Billing.At(usage, "cached_input_tokens") == u.cached
    && Billing.At(usage, "cache_write_5m_tokens") == u.write5m
         && Billing.At(usage, "cache_write_1h_tokens") == u.write1h
    && Billing.At(usage, "output_tokens") == u.output
    && forall unit :: unit in usage ==>
      && usage[unit] != 0
      && unit in {"input_tokens", "cached_input_tokens", "cache_write_5m_tokens", "cache_write_1h_tokens",
                  "output_tokens"}
  }

  /** The entry of a reply that is charged for counts u. */
  ghost predicate Accounts(e: Ledger.Entry, obs: Observation, found: Lookup, now: Ledger.Time, u: P.Counts) {
    && AreCharged(u, obs, found.price) && Itemizes(e.usage, u)
    && e.run == obs.run && e.principal == obs.principal && e.provider == obs.provider && e.model == obs.model
    && e.inputTokens == Wrap(u.input + u.cached + u.write5m + u.write1h) && e.outputTokens == u.output
    && e.cost == P.Cost(found.price, u) && (e.estimated <==> !(found.known && obs.usageReported && obs.complete))
    && e.externalId == obs.externalId && e.pricingRevision == found.revision && e.priceEffective == found.effective
    && e.hashVersion == 0 && e.createdAt == now && e.seqNo == 0 && e.prevHash == e.hash == ""
  }

  lemma CountsAreCharged(obs: Observation, price: P.Price)
    requires Fits(obs.request.maxTokens) && Fits(price.defaultMaxTokens)
    ensures AreCharged(ChargedCounts(obs, price), obs, price)
  {
    hide P.EstimateFromChars;
  }

  lemma UsageItemizes(u: P.Counts)
    ensures Itemizes(Billing.TokenUsage(u.input, u.cached, u.write5m, u.write1h, u.output), u)
  {
    hide Billing.TokenUsage;
    Billing.TokenUnits(u.input, u.cached, u.write5m, u.write1h, u.output);
  }

  lemma EntryAccounts(obs: Observation, found: Lookup, now: Ledger.Time)
    requires ObservationFits(obs, found)
    ensures Accounts(EntryOf(obs, found, now), obs, found, now, ChargedCounts(obs, found.price))
  {
    hide P.Cost, Wrap, ChargedCounts, Billing.TokenUsage, AreCharged, Itemizes;
    CountsAreCharged(obs, found.price);
    UsageItemizes(ChargedCounts(obs, found.price));
  }

  /** There is no other such entry, the columns that the store fills in aside. */
  lemma OneEntry(e: Ledger.Entry, obs: Observation, found: Lookup, now: Ledger.Time, u: P.Counts)
    requires Accounts(e, obs, found, now, u) && ObservationFits(obs, found)
    ensures e == EntryOf(obs, found, now)
  {
    hide P.Cost, Wrap, Itemizes;
    EntryAccounts(obs, found, now);
    SameCounts(u, ChargedCounts(obs, found.price), obs, found.price);
    SameUsage(e.usage, EntryOf(obs, found, now).usage, u);
  }

  lemma SameCounts(u: P.Counts, v: P.Counts, obs: Observation, price: P.Price)
    requires AreCharged(u, obs, price) && AreCharged(v, obs, price)
    ensures u == v
  {
    hide P.EstimateFromChars, P.ReservationTokens;
  }

  lemma SameUsage(a: Billing.Usage, b: Billing.Usage, u: P.Counts)
    requires Itemizes(a, u) && Itemizes(b, u)
    ensures a == b
  {
    forall unit
      ensures unit in a <==> unit in b
      ensures unit in a ==> a[unit] == b[unit]
    {
      assert Billing.At(a, unit) == Billing.At(b, unit);
    }
  }

  // What becomes of a 2xx reply

  /** The reply is for a named model and a run. */
  predicate Chargeworthy(status: int, obs: Observation) {
    200 <= status < 300 && obs.upstreamOK && obs.run != "" && obs.model != ""
  }

  /** One row more, of the observation's run and model, joined to hold i, which is not pending any more. */
  ghost predicate Paid(s: State, i: nat, obs: Observation, cost: int, t: State) {
    && |t.ledger| == |s.ledger| + 1 && t.ledger[..|s.ledger|] == s.ledger
    && var row := t.ledger[|s.ledger|];
    && row.run == obs.run && row.model == obs.model && row.cost == cost
    && obs.reservation in t.settlements && t.settlements[obs.reservation] == |t.ledger|
    && |t.holds| == |s.holds| && i < |t.holds| && t.holds[i].id == obs.reservation && t.holds[i].status != Pending
  }

  /**
   * A success whose reservation can still be charged is charged: its entry becomes the one new row, joined to the
   * reservation, which is not pending any more. Only an entry the ledger does not accept is lost.
   */
  lemma SuccessIsCharged(digest: string -> string, s: State, status: int, obs: Observation, found: Lookup,
                         now: Ledger.Time, t: State, i: nat, e: Ledger.Entry, u: P.Counts)
    requires Integrity(s) && Follows(digest, s, Resolution(Replied(status, obs), found, now), t)
    requires Chargeworthy(status, obs) && ObservationFits(obs, found) && Accounts(e, obs, found, now, u)
    requires obs.reservation != "" && Chargeable(s, i, obs.reservation, obs.run)
    ensures if Acceptable(digest, s, e, now) then ChargedTo(digest, s, i, e, now, t) else t == s
    ensures Acceptable(digest, s, e, now) ==> Paid(s, i, obs, P.Cost(found.price, u), t)
  {
    hide Integrity, Answers, EntryOf, Acceptable, Carries, Accounts, ObservationFits;
    OneEntry(e, obs, found, now, u);
    AccountedRow(e, obs, found, now, u);
    SettledExactly(digest, s, obs.reservation, e, now, t);
    if Acceptable(digest, s, e, now) {
      CarriedColumns(digest, t.ledger[|s.ledger|], e, now, s.ledger);
    }
  }

  lemma AccountedRow(e: Ledger.Entry, obs: Observation, found: Lookup, now: Ledger.Time, u: P.Counts)
    requires Accounts(e, obs, found, now, u)
    ensures e.run == obs.run && e.model == obs.model && e.cost == P.Cost(found.price, u)
  {
    hide P.Cost;
  }

  lemma CarriedColumns(digest: string -> string, row: Ledger.Row, e: Ledger.Entry, now: Ledger.Time,
                       rows: seq<Ledger.Row>)
    requires Carries(digest, row, e, now, rows)
    ensures row.run == e.run && row.model == e.model && row.cost == e.cost
  {
  }

  /** Of any other reservation it changes nothing. */
  lemma UnchargeableIsLeft(digest: string -> string, s: State, status: int, obs: Observation, found: Lookup,
                           now: Ledger.Time, t: State)
    requires Integrity(s) && Follows(digest, s, Resolution(Replied(status, obs), found, now), t)
    requires Chargeworthy(status, obs) && ObservationFits(obs, found)
    requires obs.reservation != "" && forall i: nat :: !Chargeable(s, i, obs.reservation, obs.run)
    ensures t == s
  {
    hide Integrity, Answers, Acceptable, Accounts, ObservationFits;
    var e, u := EntryOf(obs, found, now), ChargedCounts(obs, found.price);
    EntryAccounts(obs, found, now);
    AccountedRow(e, obs, found, now, u);
    hide EntryOf;
    SettledExactly(digest, s, obs.reservation, e, now, t);
  }

  /** Without a reservation a success adds one row that is joined to none. */
  lemma UnreservedIsCharged(digest: string -> string, s: State, status: int, obs: Observation, found: Lookup,
                            now: Ledger.Time, t: State, e: Ledger.Entry, u: P.Counts)
    requires Integrity(s) && Follows(digest, s, Resolution(Replied(status, obs), found, now), t)
    requires Chargeworthy(status, obs) && ObservationFits(obs, found) && Accounts(e, obs, found, now, u)
    requires obs.reservation == ""
    ensures t.holds == s.holds && t.settlements == s.settlements && t.runs == s.runs && t.leases == s.leases
    ensures if Acceptable(digest, s, e, now) then OneRowMore(digest, s, e, now, t) else t.ledger == s.ledger
  {
    hide Integrity, Answers, EntryOf, Acceptable, Carries, Accounts, ObservationFits;
    OneEntry(e, obs, found, now, u);
    AppendedExactly(digest, s, e, now, t);
  }

  /** Without a model there is nothing to charge, and a pending hold is released. */
  lemma UnnamedIsReleased(digest: string -> string, s: State, status: int, obs: Observation, found: Lookup,
                          now: Ledger.Time, t: State)
    requires Integrity(s) && Follows(digest, s, Resolution(Replied(status, obs), found, now), t)
    requires 200 <= status < 300 && obs.upstreamOK && obs.run != "" && obs.model == ""
    ensures t.ledger == s.ledger && t.settlements == s.settlements && |t.holds| == |s.holds|
    ensures forall i :: 0 <= i < |s.holds| ==>
      t.holds[i] == if obs.reservation != "" && s.holds[i].id == obs.reservation && s.holds[i].status == Pending
                    then s.holds[i].(status := Released) else s.holds[i]
  {
    hide Integrity, Answers;
    if obs.reservation != "" {
      Effects.ResolvedExactly(digest, s, obs.reservation, Released, t);
    }
  }

  /** Of a request outside any run, or one that the vendor refused after all, nothing is recorded. */
  lemma NothingIsRecorded(digest: string -> string, s: State, status: int, obs: Observation, found: Lookup,
                          now: Ledger.Time, t: State)
    requires Integrity(s) && Follows(digest, s, Resolution(Replied(status, obs), found, now), t)
    requires 200 <= status < 300 && (obs.run == "" || !obs.upstreamOK)
    ensures t == s
  {
    hide Integrity, Answers;
  }

  /**
   * Of a reply the ledger accepts exactly what counts and costs no negative amount, is of a known run and hashes anew.
   */
  lemma RecordableExactly(digest: string -> string, s: State, obs: Observation, found: Lookup, now: Ledger.Time,
                          e: Ledger.Entry, u: P.Counts)
    requires ObservationFits(obs, found) && Accounts(e, obs, found, now, u)
    ensures Acceptable(digest, s, e, now) <==>
      && P.NonNegative(u) && e.inputTokens >= 0 && e.cost >= 0 && obs.run in s.runs && NewHash(digest, s, e, now)
  {
    hide P.Cost, Wrap, NewHash, AreCharged, ObservationFits, Itemizes, StoredQuantities, Billing.UsageOk;
    if e.inputTokens >= 0 {
      ValidQuantities(e, u);
    }
  }

  lemma ValidQuantities(e: Ledger.Entry, u: P.Counts)
    requires Itemizes(e.usage, u) && e.outputTokens == u.output && e.hashVersion == 0 && e.inputTokens >= 0
    ensures Billing.UsageOk(StoredQuantities(e)) <==> P.NonNegative(u)
  {
    UsageItemizes(u);
    SameUsage(e.usage, Billing.TokenUsage(u.input, u.cached, u.write5m, u.write1h, u.output), u);
    Billing.TokensAreValid(u.input, u.cached, u.write5m, u.write1h, u.output);
    Billing.TokensAreValid(e.inputTokens, 0, 0, 0, e.outputTokens);
    hide Billing.UsageOk, Billing.TokenUsage;
    assert Billing.Normalized(e.usage) == e.usage;
    if e.usage == map[] {
      assert Billing.At(e.usage, "output_tokens") == 0;
    }
  }
}
