/** The read-only budget report and the reservation decision tell the same story about the same tables. */
module Agreement {
  import opened Wrappers
  import opened Hierarchy
  import opened Tables
  import opened Changes
  import opened Budgets
  import opened Outcomes

  /** What the report says about a reservation of this amount. */
  predicate Affordable(b: Status, amount: int) {
    b.spendAllowed && (b.unlimited || amount <= b.effectiveRemaining)
  }

  lemma LevelsAgree(s: State, r: Request, b: Status)
    requires Forest(s.runs) && r.run in s.runs && StatusOf(s, r.run, Ok(b))
    ensures ChainDecidable(s, r.run) <==> b.spendAllowed
    ensures NoneShort(s, r) <==> b.unlimited || r.amount <= b.effectiveRemaining
  {
    hide RunRemaining, Spent, Held, LevelOf;
    var chain := Chain(s.runs, r.run);
    forall k | 0 <= k < |chain|
      ensures LevelFault(s, chain[k]) == None <==> s.runs[chain[k]].status == Active
    {
      assert !Unsummable(s, chain, k);
    }
    if !b.unlimited {
      var k :| Limiting(s, chain, |chain|, k) && b.effectiveRemaining == RunRemaining(s, chain[k]);
      assert Short(s, chain[k], r.amount) <==> r.amount > b.effectiveRemaining;
    }
  }

  /** Enforced and free of leases, a new pending reservation is allowed exactly when the report affords it. */
  lemma AllowedIffAffordable(s: State, r: Request, res: Result<Decision, Error>, t: State, b: Status)
    requires Forest(s.runs) && r.status == Pending && r.lease == None && r.run in s.runs && Insertable(s, r)
    requires Reserved(s, r, true, res, t) && StatusOf(s, r.run, Ok(b))
    ensures (res.Ok? && res.value.allowed) <==> Affordable(b, r.amount)
  {
    hide Short, NearestFault, LevelFault, StatusOf, Chain, InsertHold;
    LevelsAgree(s, r, b);
  }

  /**
   * A blocked decision names the nearest insufficient run; the report's limiting run is insufficient too
   * and has no more left than the named one.
   */
  lemma BlockedRunsAgree(s: State, r: Request, enforce: bool, d: Decision, b: Status)
    requires Forest(s.runs) && r.lease == None && r.run in s.runs
    requires Decided(s, r, enforce, d) && d.wouldBlock && StatusOf(s, r.run, Ok(b))
    ensures b.limitingRun.Some? && b.limitingRun.value in s.runs
    ensures Short(s, b.limitingRun.value, r.amount)
    ensures b.effectiveRemaining == RunRemaining(s, b.limitingRun.value) <= d.remaining
  {
    hide RunRemaining, Spent, Held, LevelOf;
    var chain := Chain(s.runs, r.run);
    var k :| NearestShort(s, r, k) && d.run == chain[k];
    assert s.runs[chain[k]].budget > 0;
    var l :| Limiting(s, chain, |chain|, l) && b.limitingRun == Some(chain[l])
      && b.effectiveRemaining == RunRemaining(s, chain[l]);
    assert RunRemaining(s, chain[l]) <= RunRemaining(s, chain[k]);
  }

  /** Observe mode computes the same decision as enforcement, and always allows it. */
  lemma ObserveDecidesAlike(s: State, r: Request, enforced: Decision, observed: Decision)
    requires Forest(s.runs) && r.run in s.runs && (r.lease.Some? ==> r.lease.value in s.leases)
    requires Decided(s, r, true, enforced) && Decided(s, r, false, observed)
    ensures observed == enforced.(allowed := true)
    ensures enforced.allowed <==> !enforced.wouldBlock
  {
    hide Short, RunRemaining, LeaseRemaining, Spent, Held, LeaseSpent, LeaseHeld, Chain, LeaseShort;
  }
}
