/** What each store call does to the tables, row by row and figure by figure (internal/store/sqlite/sqlite.go). */
module Effects {
  import opened Wrappers
  import opened Int64
  import opened Sums
  import opened Hierarchy
  import opened Tables
  import opened Changes
  import opened Budgets
  import opened Outcomes
  import opened Histories
  import Ledger
  import Stamps

  // Reservations

  /** Nothing but the reservations, and the waivers that only proofs know, has changed. */
  ghost predicate OnlyHoldsChange(s: State, t: State) {
    t.runs == s.runs && t.leases == s.leases && t.ledger == s.ledger && t.settlements == s.settlements
  }

  /** An allowed reservation is stored as it was asked for. */
  lemma AllowedIsStored(s: State, r: Request, enforce: bool, d: Decision, t: State)
    requires Forest(s.runs) && Reserved(s, r, enforce, Ok(d), t) && d.allowed
    ensures OnlyHoldsChange(s, t) && |t.holds| == |s.holds| + 1 && t.holds[..|s.holds|] == s.holds
    ensures var hold := t.holds[|s.holds|];
      && hold.id == r.id && hold.run == r.run && hold.lease == r.lease && hold.amount == r.amount
      && hold.status == Pending && hold.expiresAt == r.expiresAt
  {
    hide Decidable, Decided;
  }

  lemma RefusedChangesNothing(s: State, r: Request, enforce: bool, res: Result<Decision, Error>, t: State)
    requires Forest(s.runs) && Reserved(s, r, enforce, res, t) && !(res.Ok? && res.value.allowed)
    ensures t == s
  {
    hide Decidable, Decided, ReserveFails;
  }

  /** It counts at once against its lease, and against its run and every ancestor, in full; and against nothing else. */
  lemma AllowedCounts(s: State, r: Request, enforce: bool, d: Decision, t: State)
    requires Integrity(s) && Reserved(s, r, enforce, Ok(d), t) && d.allowed && r.run in s.runs
    ensures forall lease ::
      && LeaseHeld(t, lease) == LeaseHeld(s, lease) + (if r.lease == Some(lease) then r.amount else 0)
      && LeaseSpent(t, lease) == LeaseSpent(s, lease)
    ensures Forest(t.runs) && t.runs == s.runs
    ensures forall id :: id in s.runs ==>
      && Held(t, id) == Held(s, id) + (if id in Chain(s.runs, r.run) then r.amount else 0)
      && Spent(t, id) == Spent(s, id)
  {
    hide Decidable, Decided, Forest, HoldsReferTo, UniqueHolds, Reserved, HoldLinksOk, LinksDistinct;
    AllowedIsStored(s, r, enforce, d, t);
    var hold := t.holds[|s.holds|];
    assert t.holds == s.holds + [hold];
    forall lease
      ensures LeaseHeld(t, lease) == LeaseHeld(s, lease) + (if r.lease == Some(lease) then r.amount else 0)
      ensures LeaseSpent(t, lease) == LeaseSpent(s, lease)
    {
      TotalOfAppend(s.holds, hold, LeaseHeldBy(lease));
      NewIsUncharged(s, r, enforce, d, t);
      TotalOfAppend(s.holds, hold, LeaseSpentBy(s.settlements, s.ledger, lease));
    }
    forall id | id in s.runs
      ensures Held(t, id) == Held(s, id) + (if id in Chain(s.runs, r.run) then r.amount else 0)
    {
      TotalOfAppend(s.holds, hold, HeldBy(Subtree(s.runs, id)));
      WalksAreDual(s.runs, id, r.run);
    }
  }

  lemma NewIsUncharged(s: State, r: Request, enforce: bool, d: Decision, t: State)
    requires Integrity(s) && Reserved(s, r, enforce, Ok(d), t) && d.allowed
    ensures r.id !in s.settlements
  {
    hide Decidable, Decided, Forest, HoldsReferTo, UniqueHolds, HoldLinksOk, LinksDistinct, InsertHold;
  }

  /** The figures fit the ceiling, or nothing is asked of it; the sums are int64s. */
  predicate Affords(ceiling: nat, spent: nat, held: nat, amount: int) {
    ceiling > 0 ==> amount <= 0 || spent + held + amount <= ceiling
  }

  predicate SumsFit(spent: nat, held: nat) {
    spent <= MAX_INT64 && held <= MAX_INT64
  }

  /** What enforcement asks of one run. */
  ghost predicate RunAdmits(s: State, id: Id, amount: int)
    requires Forest(s.runs) && id in s.runs
  {
    var run := s.runs[id];
    && run.status == Active && (run.budget > 0 ==> SumsFit(Spent(s, id), Held(s, id)))
    && Affords(run.budget, Spent(s, id), Held(s, id), amount)
  }

  ghost predicate LeaseAdmits(s: State, lease: Id, amount: int) {
    && lease in s.leases && SumsFit(LeaseSpent(s, lease), LeaseHeld(s, lease))
    && Affords(s.leases[lease].ceiling, LeaseSpent(s, lease), LeaseHeld(s, lease), amount)
  }

  lemma LevelAdmits(s: State, id: Id, amount: int)
    requires Forest(s.runs) && id in s.runs
    ensures RunAdmits(s, id, amount) <==> LevelFault(s, id) == None && !Short(s, id, amount)
  {
    hide Spent, Held;
  }

  /** The request is new, every run up to the root admits its amount, and so does its lease. */
  ghost predicate Admissible(s: State, r: Request)
    requires Forest(s.runs)
  {
    && r.status == Pending && 0 <= r.amount && (forall i :: 0 <= i < |s.holds| ==> s.holds[i].id != r.id)
    && r.run in s.runs && (forall id :: id in Chain(s.runs, r.run) ==> RunAdmits(s, id, r.amount))
    && (r.lease.Some? ==> LeaseAdmits(s, r.lease.value, r.amount))
  }

  lemma ChainAdmits(s: State, r: Request)
    requires Forest(s.runs) && r.run in s.runs
    ensures (forall id :: id in Chain(s.runs, r.run) ==> RunAdmits(s, id, r.amount))
       <==> ChainDecidable(s, r.run) && NoneShort(s, r)
  {
    hide Short, LevelFault, RunAdmits, Chain;
    var chain := Chain(s.runs, r.run);
    forall k | 0 <= k < |chain|
      ensures RunAdmits(s, chain[k], r.amount) <==> LevelFault(s, chain[k]) == None && !Short(s, chain[k], r.amount)
    {
      LevelAdmits(s, chain[k], r.amount);
    }
    if forall id :: id in chain ==> RunAdmits(s, id, r.amount) {
      assert forall k :: 0 <= k < |chain| ==> RunAdmits(s, chain[k], r.amount);
    }
  }

  lemma LeaseAdmitted(s: State, r: Request)
    ensures (r.lease.Some? ==> LeaseAdmits(s, r.lease.value, r.amount)) <==>
      && (r.lease.Some? ==> r.lease.value in s.leases)
      && !LeaseFault(s, r.lease) && !LeaseShort(s, r.lease, r.amount)
  {
    hide LeaseSpent, LeaseHeld;
  }

  lemma InsertableIs(s: State, r: Request)
    ensures Insertable(s, r) <==> 0 <= r.amount && forall i :: 0 <= i < |s.holds| ==> s.holds[i].id != r.id
  {
  }

  lemma NearestFaults(s: State, run: Id)
    requires Forest(s.runs) && run in s.runs
    ensures forall e :: NearestFault(s, run, e) ==> !ChainDecidable(s, run)
  {
    hide LevelFault;
  }

  lemma BlockedIsShort(s: State, r: Request, enforce: bool, d: Decision)
    requires Forest(s.runs) && r.run in s.runs && (r.lease.Some? ==> r.lease.value in s.leases)
    requires Decided(s, r, enforce, d)
    ensures d.wouldBlock <==> !NoneShort(s, r) || LeaseShort(s, r.lease, r.amount)
  {
    hide Short, LeaseShort, Chain, RunRemaining, LeaseRemaining, Spent, Held, LeaseSpent, LeaseHeld;
  }

  /** Enforced, a reservation is allowed exactly when it is admissible: never too much, and never too little. */
  lemma AllowedExactly(s: State, r: Request, res: Result<Decision, Error>, t: State)
    requires Forest(s.runs) && Reserved(s, r, true, res, t)
    ensures (res.Ok? && res.value.allowed) <==> Admissible(s, r)
  {
    hide NoneShort, ChainDecidable, LeaseFault, LeaseShort, LeaseAdmits, RunAdmits, Chain, RunBlocks, LeaseBlocks,
      NearestFault, Insertable, NothingBlocks;
    LeaseAdmitted(s, r);
    InsertableIs(s, r);
    if r.run in s.runs {
      ChainAdmits(s, r);
      NearestFaults(s, r.run);
    }
    match res {
      case Ok(d) => BlockedIsShort(s, r, true, d);
      case Err(e) =>
        if d :| e == Conflict && Decidable(s, r) && Decided(s, r, true, d) && d.allowed {
          BlockedIsShort(s, r, true, d);
        }
    }
  }

  /** What is left of a ceiling, or nothing. */
  predicate IsLeft(left: int, ceiling: int, spent: int, held: int) {
    left == if spent + held <= ceiling then ceiling - spent - held else 0
  }

  /** The decision's figures are those of its run, the nearest whose budget cannot cover the amount. */
  ghost predicate NamesRun(s: State, r: Request, d: Decision, k: int)
    requires Forest(s.runs) && r.run in s.runs
  {
    var chain := Chain(s.runs, r.run);
    && 0 <= k < |chain| && d.run == chain[k] && d.budget == s.runs[d.run].budget > 0
    && d.spent == Spent(s, d.run) && d.held == Held(s, d.run)
    && forall j :: 0 <= j < k ==> Affords(s.runs[chain[j]].budget, Spent(s, chain[j]), Held(s, chain[j]), r.amount)
  }

  /** No run is short, and the figures are those of the lease. */
  ghost predicate NamesLease(s: State, r: Request, d: Decision)
    requires Forest(s.runs) && r.run in s.runs
  {
    && (forall id :: id in Chain(s.runs, r.run) ==> Affords(s.runs[id].budget, Spent(s, id), Held(s, id), r.amount))
    && r.lease.Some? && r.lease.value in s.leases && d.run == r.run && d.budget == s.leases[r.lease.value].ceiling > 0
    && d.spent == LeaseSpent(s, r.lease.value) && d.held == LeaseHeld(s, r.lease.value)
  }

  lemma AffordsIs(s: State, id: Id, amount: int)
    requires Forest(s.runs) && id in s.runs
    ensures Affords(s.runs[id].budget, Spent(s, id), Held(s, id), amount) <==> !Short(s, id, amount)
  {
    hide Spent, Held;
  }

  /** A decision that would block says by how much, and on whose account. */
  lemma BlockedFigures(s: State, r: Request, enforce: bool, d: Decision)
    requires Forest(s.runs) && r.run in s.runs && (r.lease.Some? ==> r.lease.value in s.leases)
    requires Decided(s, r, enforce, d) && d.wouldBlock
    ensures d.allowed == !enforce && d.requested == r.amount && d.shortfall == r.amount - d.remaining > 0
    ensures IsLeft(d.remaining, d.budget, d.spent, d.held)
    ensures NamesLease(s, r, d) || exists k :: NamesRun(s, r, d, k)
  {
    hide Spent, Held, LeaseSpent, LeaseHeld, Chain, Short, Affords;
    forall id | id in s.runs
      ensures Affords(s.runs[id].budget, Spent(s, id), Held(s, id), r.amount) <==> !Short(s, id, r.amount)
    {
      AffordsIs(s, id, r.amount);
    }
    if RunBlocks(s, r, d) {
      var k :| NearestShort(s, r, k) && d.run == Chain(s.runs, r.run)[k]
        && d.budget == s.runs[d.run].budget && d.spent == Spent(s, d.run) && d.held == Held(s, d.run)
        && d.remaining == RunRemaining(s, d.run) && d.shortfall == r.amount - d.remaining;
      ShortIs(s, d.run, r.amount);
      assert NamesRun(s, r, d, k);
    }
  }

  lemma ShortIs(s: State, id: Id, amount: int)
    requires Forest(s.runs) && id in s.runs && Short(s, id, amount)
    ensures s.runs[id].budget > 0 && amount > RunRemaining(s, id)
  {
  }

  /** The nearest run up to the root that is closed, or limited and past int64 sums. */
  ghost predicate NearestFaulty(s: State, run: Id, k: int)
    requires Forest(s.runs) && run in s.runs
  {
    var chain := Chain(s.runs, run);
    && 0 <= k < |chain| && Faulty(s, chain[k])
    && forall j :: 0 <= j < k ==> !Faulty(s, chain[j])
  }

  predicate Faulty(s: State, id: Id)
    requires Forest(s.runs) && id in s.runs
  {
    s.runs[id].status != Active || (s.runs[id].budget > 0 && !SumsFit(Spent(s, id), Held(s, id)))
  }

  lemma FaultIs(s: State, id: Id)
    requires Forest(s.runs) && id in s.runs
    ensures Faulty(s, id) <==> LevelFault(s, id).Some?
    ensures Faulty(s, id) ==>
      LevelFault(s, id) == Some(if s.runs[id].status != Active then Error.Conflict else Error.Overflow)
  {
    hide Spent, Held;
  }

  /** Which error a reservation fails with: the first that its checks come to. */
  lemma FailuresNamed(s: State, r: Request, enforce: bool, e: Error, t: State)
    requires Forest(s.runs) && Reserved(s, r, enforce, Err(e), t)
    ensures
      if r.status != Pending then e == Error.Conflict
      else if r.run !in s.runs then e == Error.NotFound
      else if exists id :: id in Chain(s.runs, r.run) && Faulty(s, id) then
        exists k :: NearestFaulty(s, r.run, k)
          && e == if s.runs[Chain(s.runs, r.run)[k]].status != Active then Error.Conflict else Error.Overflow
      else if r.lease.Some? && r.lease.value !in s.leases then e == Error.NotFound
      else if r.lease.Some? && !SumsFit(LeaseSpent(s, r.lease.value), LeaseHeld(s, r.lease.value)) then e
        == Error.Overflow
      else e == Error.Conflict && (r.amount < 0 || exists i :: 0 <= i < |s.holds| && s.holds[i].id == r.id)
  {
    hide Faulty, LevelFault, Chain, Decided, LeaseSpent, LeaseHeld;
    InsertableIs(s, r);
    if r.run in s.runs {
      forall id | id in s.runs
        ensures Faulty(s, id) <==> LevelFault(s, id).Some?
        ensures Faulty(s, id) ==>
          LevelFault(s, id) == Some(if s.runs[id].status != Active then Error.Conflict else Error.Overflow)
      {
        FaultIs(s, id);
      }
      if r.status == Pending && !ChainDecidable(s, r.run) {
        var chain := Chain(s.runs, r.run);
        var k :| 0 <= k < |chain| && LevelFault(s, chain[k]) == Some(e)
          && forall j :: 0 <= j < k ==> LevelFault(s, chain[j]) == None;
        assert NearestFaulty(s, r.run, k);
        assert chain[k] in chain;
      }
    }
  }

  // The budget report

  /** One level of the report, from the tables. */
  ghost predicate Describes(l: Level, s: State, id: Id)
    requires Forest(s.runs) && id in s.runs
  {
    var run := s.runs[id];
    && l.run == id && l.status == run.status && l.budget == run.budget
    && l.spent == Spent(s, id) && l.held == Held(s, id) && (l.unlimited <==> run.budget == 0)
    && if run.budget == 0 then l.remaining == 0 else IsLeft(l.remaining, run.budget, l.spent, l.held)
  }

  /** Level k has the least left of all limited levels, and is the nearest that has. */
  ghost predicate Least(levels: seq<Level>, k: int) {
    && 0 <= k < |levels| && !levels[k].unlimited
    && (forall j :: 0 <= j < |levels| && !levels[j].unlimited ==> levels[k].remaining <= levels[j].remaining)
    && (forall j :: 0 <= j < k && !levels[j].unlimited ==> levels[k].remaining < levels[j].remaining)
  }

  ghost predicate NearestClosed(levels: seq<Level>, k: int) {
    0 <= k < |levels| && levels[k].status != Active && forall j :: 0 <= j < k ==> levels[j].status == Active
  }

  lemma LevelDescribed(s: State, id: Id)
    requires Forest(s.runs) && id in s.runs
    ensures Describes(LevelOf(s, id), s, id)
    ensures s.runs[id].budget > 0 ==> LevelOf(s, id).remaining == RunRemaining(s, id)
  {
    hide Spent, Held;
  }

  ghost predicate SpendFigures(b: Status) {
    if b.spendAllowed then b.blockingRun == None && forall k :: 0 <= k < |b.levels| ==> b.levels[k].status == Active
    else exists k :: NearestClosed(b.levels, k) && b.blockingRun == Some(b.levels[k].run)
  }

  ghost predicate LimitFigures(b: Status) {
    if b.unlimited then b.limitingRun == None && forall k :: 0 <= k < |b.levels| ==> b.levels[k].unlimited
    else exists k ::
      Least(b.levels, k) && b.limitingRun == Some(b.levels[k].run) && b.effectiveRemaining == b.levels[k].remaining
  }

  lemma SpendIsFigured(s: State, chain: seq<Id>, b: Status)
    requires Forest(s.runs) && forall i :: 0 <= i < |chain| ==> chain[i] in s.runs
    requires SpendReported(s, chain, |chain|, b) && |b.levels| == |chain|
    requires forall k :: 0 <= k < |chain| ==>
      b.levels[k].run == chain[k] && b.levels[k].status == s.runs[chain[k]].status
    ensures SpendFigures(b)
  {
    if !b.spendAllowed {
      var k :| Blocking(s, chain, |chain|, k) && b.blockingRun == Some(chain[k]);
      assert NearestClosed(b.levels, k);
    }
  }

  lemma LimitIsFigured(s: State, chain: seq<Id>, b: Status)
    requires Forest(s.runs) && forall i :: 0 <= i < |chain| ==> chain[i] in s.runs
    requires LimitReported(s, chain, |chain|, b) && |b.levels| == |chain|
    requires forall k :: 0 <= k < |chain| ==>
      && b.levels[k].run == chain[k] && (b.levels[k].unlimited <==> s.runs[chain[k]].budget == 0)
      && (s.runs[chain[k]].budget > 0 ==> b.levels[k].remaining == RunRemaining(s, chain[k]))
    ensures LimitFigures(b)
  {
    hide RunRemaining, Forest;
    if !b.unlimited {
      var k :| Limiting(s, chain, |chain|, k) && b.limitingRun == Some(chain[k])
        && b.effectiveRemaining == RunRemaining(s, chain[k]);
      assert Least(b.levels, k);
    }
  }

  /** The report describes every run up to the root, and sums its own levels up. */
  lemma ReportFigures(s: State, run: Id, b: Status)
    requires Forest(s.runs) && StatusOf(s, run, Ok(b))
    ensures run in s.runs && b.run == run && b.status == s.runs[run].status
    ensures var chain := Chain(s.runs, run);
      |b.levels| == |chain| && forall k :: 0 <= k < |chain| ==> Describes(b.levels[k], s, chain[k])
    ensures SpendFigures(b) && LimitFigures(b)
  {
    hide LevelOf, Chain, Forest, SpendReported, LimitReported, SpendFigures, LimitFigures, Unsummable;
    var chain := Chain(s.runs, run);
    forall k | 0 <= k < |chain|
      ensures Describes(b.levels[k], s, chain[k])
      ensures s.runs[chain[k]].budget > 0 ==> b.levels[k].remaining == RunRemaining(s, chain[k])
    {
      LevelDescribed(s, chain[k]);
    }
    SpendIsFigured(s, chain, b);
    LimitIsFigured(s, chain, b);
  }

  // Expiry

  /** Exactly the pending holds whose expiry is due in the order of stored text expire; nothing else changes. */
  lemma SweptExactly(digest: string -> string, s: State, now: Instant, t: State)
    requires Integrity(s) && Answers(digest, s, ExpirePending(now), t)
    ensures OnlyHoldsChange(s, t) && t.waivers == s.waivers && |t.holds| == |s.holds|
    ensures forall i :: 0 <= i < |s.holds| ==>
      var due := s.holds[i].status == Pending && Stamps.TextAtMost(s.holds[i].expiresAt, now);
      && (due <==> t.holds[i] != s.holds[i])
      && (due ==> t.holds[i] == s.holds[i].(status := Expired))
  {
    hide Integrity, Stamps.TextAtMost;
  }

  /** By the clock: a second past its expiry a pending hold has expired, and a second before it none has. */
  lemma SweptByTheClock(digest: string -> string, s: State, now: Instant, t: State, i: nat)
    requires Integrity(s) && Answers(digest, s, ExpirePending(now), t) && i < |s.holds|
    ensures |t.holds| == |s.holds|
    ensures s.holds[i].status == Pending && s.holds[i].expiresAt / 1_000_000_000 < now / 1_000_000_000 ==>
      t.holds[i] == s.holds[i].(status := Expired)
    ensures s.holds[i].status != Pending || s.holds[i].expiresAt / 1_000_000_000 > now / 1_000_000_000 ==>
      t.holds[i] == s.holds[i]
  {
    hide Integrity, Answers, Stamps.TextAtMost;
    SweptExactly(digest, s, now, t);
    Stamps.TextOrderExactly(s.holds[i].expiresAt, now);
  }

  // Runs, leases and resolutions

  /** Under an active parent of the same principal, or none, a new id is inserted; otherwise nothing changes. */
  lemma RunCreatedExactly(digest: string -> string, s: State, id: Id, principal: Id, parent: Option<Id>, budget: Nanos,
                          status: RunStatus, t: State)
    requires Integrity(s) && Answers(digest, s, CreateRun(id, principal, parent, budget, status), t)
    ensures t == s.(runs := t.runs)
    ensures if id !in s.runs && budget >= 0
               && (parent == None || (parent.value in s.runs && s.runs[parent.value].principal == principal
                                      && s.runs[parent.value].status == Active))
            then t.runs.Keys == s.runs.Keys + {id}
                 && (forall other :: other in s.runs ==> t.runs[other] == s.runs[other])
                 && t.runs[id] == Run(principal, parent, budget, status, |s.runs|)
            else t == s
  {
    hide Integrity;
  }

  lemma RunClosedExactly(digest: string -> string, s: State, id: Id, t: State)
    requires Integrity(s) && Answers(digest, s, CloseRun(id), t)
    ensures t == s.(runs := t.runs) && t.runs.Keys == s.runs.Keys
    ensures forall other :: other in s.runs ==>
      t.runs[other] == if other == id then s.runs[other].(status := Closed) else s.runs[other]
  {
    hide Integrity;
  }

  lemma LeaseCreatedExactly(digest: string -> string, s: State, id: Id, run: Id, tokenHash: string, ceiling: Nanos,
                            t: State)
    requires Integrity(s) && Forest(s.runs) && Answers(digest, s, CreateLease(id, run, tokenHash, ceiling), t)
    ensures t == s.(leases := t.leases)
    ensures if run in s.runs && (forall above :: above in Chain(s.runs, run) ==> s.runs[above].status == Active)
               && id !in s.leases && ceiling >= 0 && (forall l :: l in s.leases ==> s.leases[l].tokenHash != tokenHash)
            then t.leases.Keys == s.leases.Keys + {id} && (forall l :: l in s.leases ==> t.leases[l] == s.leases[l])
                 && t.leases[id] == Lease(run, tokenHash, ceiling)
            else t == s
  {
    hide Integrity, Chain;
    if run in s.runs && forall above :: above in Chain(s.runs, run) ==> s.runs[above].status == Active {
      var chain := Chain(s.runs, run);
      assert forall k :: 0 <= k < |chain| ==> chain[k] in chain;
      assert ChainActive(s.runs, run);
    }
    if forall l :: l in s.leases ==> s.leases[l].tokenHash != tokenHash {
      assert tokenHash !in TokenHashes(s.leases);
    }
  }

  /** The pending hold of that id takes the status, unless that is pending; nothing else changes. */
  lemma ResolvedExactly(digest: string -> string, s: State, id: Id, to: HoldStatus, t: State)
    requires Integrity(s) && Answers(digest, s, ResolveReservation(id, to), t)
    ensures OnlyHoldsChange(s, t) && t.waivers == s.waivers && |t.holds| == |s.holds|
    ensures forall i :: 0 <= i < |s.holds| ==>
      t.holds[i] == if s.holds[i].id == id && s.holds[i].status == Pending then s.holds[i].(status := to)
        else s.holds[i]
  {
    hide Forest, LinksOk, HoldsReferTo, Locate;
    var found := Locate(s.holds, id);
    forall i | 0 <= i < |s.holds| && s.holds[i].id == id
      ensures found == Some(i)
    {
      LocateIs(s.holds, i);
    }
  }

  /** A closed run never gains a child. */
  lemma {:induction false} NoChildOfClosed(digest: string -> string, calls: seq<Call>, states: seq<State>, i: nat,
                                           j: nat, id: Id, child: Id)
    requires History(digest, calls, states) && i <= j < |states|
    requires id in states[i].runs && states[i].runs[id].status == Closed
    requires child in states[j].runs && states[j].runs[child].parent == Some(id)
    ensures child in states[i].runs
    decreases j
  {
    hide Integrity, Safe, Answers, Commits, Grows;
    if i < j {
      ReachableIsSafe(digest, calls, states, j - 1);
      HistoryGrows(digest, calls, states, i, j - 1);
      StaysClosed(states[i], states[j - 1], id);
      assert Answers(digest, states[j - 1], calls[j - 1], states[j]);
      ParentWasActive(digest, states[j - 1], calls[j - 1], states[j], child, id);
      NoChildOfClosed(digest, calls, states, i, j - 1, id, child);
    }
  }

  lemma StaysClosed(s: State, t: State, id: Id)
    requires Grows(s, t) && id in s.runs && s.runs[id].status == Closed
    ensures id in t.runs && t.runs[id].status == Closed
  {
  }

  lemma ParentWasActive(digest: string -> string, s: State, call: Call, t: State, child: Id, parent: Id)
    requires Integrity(s) && Answers(digest, s, call, t) && parent in s.runs && s.runs[parent].status == Closed
    requires child in t.runs && t.runs[child].parent == Some(parent)
    ensures child in s.runs && s.runs[child].parent == Some(parent)
  {
    hide Integrity, Answers;
    if call.CreateRun? {
      RunCreatedExactly(digest, s, call.runId, call.principal, call.parent, call.budget, call.status, t);
    } else if call.CloseRun? {
      RunClosedExactly(digest, s, call.closing, t);
    } else {
      OthersKeepRuns(digest, s, call, t);
    }
  }

  lemma OthersKeepRuns(digest: string -> string, s: State, call: Call, t: State)
    requires Integrity(s) && Answers(digest, s, call, t) && !call.CreateRun? && !call.CloseRun?
    ensures t.runs == s.runs
  {
    hide Forest, LinksOk, HoldsReferTo, UniqueHolds, Decidable, Decided, ReserveFails, Appendable, SealedEntry,
      AppendFault, Charge, Ledger.RowOf, Ledger.Scan, Ledger.InRange, Leasable, Sweep, Locate;
    if call.SettleReservation? {
      var res :| Charged(digest, s, call.id, call.e, call.now, res, t);
      if t != s {
        var i := Locate(s.holds, call.id).value;
        LocatedId(s.holds, call.id);
        ChargedIs(digest, s, i, call.e, call.now, res, t);
        ChargeParts(s, i, Ledger.RowOf(res.value), s.holds[i].status == Pending);
      }
    } else if call.ExpirePending? {
      SweptRuns(s, call.at);
    }
  }

  lemma SweptRuns(s: State, now: Instant)
    ensures Sweep(s, now).runs == s.runs
  {
  }
}
