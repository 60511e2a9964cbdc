/** The store's transactions (internal/store/sqlite/sqlite.go), each one atomic under the store's mutexes. */
module BudgetStore {
  import opened Wrappers
  import opened Int64
  import opened Sums
  import opened Hierarchy
  import opened Tables
  import opened Changes
  import opened Budgets
  import opened Outcomes
  import Billing
  import Ledger

  class Store {
    var runs: Runs
    var leases: map<Id, Lease>
    var holds: seq<Hold>
    var settlements: map<Id, nat>
    var ledger: seq<Ledger.Row>
    ghost var waivers: seq<Waiver>
    const digest: string -> string

    ghost function Now(): State
      reads this
    {
      State(runs, leases, holds, settlements, ledger, waivers)
    }

    /** Every budget, lease, reference and hash link is in order. */
    ghost predicate Valid()
      reads this
    {
      Safe(digest, Now())
    }

    constructor (digest: string -> string)
      ensures Valid() && Now() == EMPTY && this.digest == digest
    {
      this.digest := digest;
      runs, leases, holds, settlements, ledger, waivers := map[], map[], [], map[], [], [];
    }

    method CreateRun(id: Id, principal: Id, parent: Option<Id>, budget: Nanos, status: RunStatus)
      returns (res: Result<(), Error>)
      requires Valid()
      modifies this
      ensures Valid()
      ensures res.Ok? <==> Creatable(old(Now()), id, principal, parent, budget)
      ensures res.Ok? ==> Now() == InsertRun(old(Now()), id, Run(principal, parent, budget, status, |old(runs)|))
      ensures res.Err? ==> Now() == old(Now())
      ensures res == Err(NotFound) <==> parent.Some? && parent.value !in old(runs)
    {
      hide Safe;
      if parent.Some? {
        if parent.value !in runs {
          return Err(NotFound);
        }
        if runs[parent.value].principal != principal || runs[parent.value].status != Active {
          return Err(Conflict);
        }
      }
      if budget < 0 || id in runs {
        return Err(Conflict);
      }
      ghost var s := Now();
      var row := Run(principal, parent, budget, status, |runs|);
      Commit(digest, s, NewRun(id, row));
      runs := runs[id := row];
      return Ok(());
    }

    /** Closing a closed run changes nothing. */
    method CloseRun(id: Id) returns (res: Result<(), Error>)
      requires Valid()
      modifies this
      ensures Valid()
      ensures res == if id in old(runs) then Ok(()) else Err(NotFound)
      ensures Now() == if id in old(runs) then CloseRow(old(Now()), id) else old(Now())
    {
      hide Safe;
      if id !in runs {
        return Err(NotFound);
      }
      if runs[id].status == Active {
        Commit(digest, Now(), Closing(id));
        runs := runs[id := runs[id].(status := Closed)];
      } else {
        assert runs == runs[id := runs[id].(status := Closed)];
      }
      return Ok(());
    }

    method CreateLease(id: Id, run: Id, tokenHash: string, ceiling: Nanos) returns (res: Result<(), Error>)
      requires Valid()
      modifies this
      ensures Valid()
      ensures Forest(old(runs)) && (res.Ok? <==> Leasable(old(Now()), id, run, tokenHash, ceiling))
      ensures res.Ok? ==> Now() == InsertLease(old(Now()), id, Lease(run, tokenHash, ceiling))
      ensures res.Err? ==> Now() == old(Now())
      ensures res == Err(NotFound) <==> run !in old(runs)
    {
      hide Safe;
      SafeIsForest(digest, Now());
      if run !in runs {
        return Err(NotFound);
      }
      var chain := Chain(runs, run);
      for k := 0 to |chain|
        invariant forall j :: 0 <= j < k ==> runs[chain[j]].status == Active
      {
        if runs[chain[k]].status != Active {
          return Err(Conflict);
        }
      }
      if id in leases || ceiling < 0 || tokenHash in TokenHashes(leases) {
        return Err(Conflict);
      }
      var row := Lease(run, tokenHash, ceiling);
      Commit(digest, Now(), NewLease(id, row));
      leases := leases[id := row];
      return Ok(());
    }

    method SubtreeUsage(id: Id) returns (res: Result<(nat, nat), Error>)
      requires Forest(runs) && id in runs
      ensures res == if Summable(Spent(Now(), id), Held(Now(), id)) then Ok((Spent(Now(), id), Held(Now(), id)))
                     else Err(Overflow)
    {
      var tree := Subtree(runs, id);
      var spent, held := Total(ledger, SpentBy(tree)), Total(holds, HeldBy(tree));
      if !Summable(spent, held) {
        return Err(Overflow);
      }
      return Ok((spent, held));
    }

    /** The decision over the run and its ancestors; the first insufficient one is named. */
    method DecideRuns(r: Request) returns (res: Result<Decision, Error>)
      requires Forest(runs) && r.run in runs
      ensures RunsDecided(Now(), r, res)
    {
      hide Spent, Held, Subtree;
      var chain := Chain(runs, r.run);
      var decision := Unblocked(r);
      for k := 0 to |chain|
        invariant forall j :: 0 <= j < k ==> LevelFault(Now(), chain[j]) == None
        invariant if decision.wouldBlock then RunBlocks(Now(), r, decision) && decision.requested == r.amount
                  else decision == Unblocked(r) && forall j :: 0 <= j < k ==> !Short(Now(), chain[j], r.amount)
      {
        var n := runs[chain[k]];
        if n.status != Active {
          return Err(Conflict);
        }
        if n.budget == 0 {
          continue;
        }
        var usage := SubtreeUsage(chain[k]);
        if usage.Err? {
          return Err(Overflow);
        }
        var (spent, held) := usage.value;
        var remaining := Remaining(n.budget, spent, held);
        if r.amount > remaining && !decision.wouldBlock {
          decision := Decision(false, true, chain[k], n.budget, spent, held, r.amount, remaining, r.amount - remaining);
          assert NearestShort(Now(), r, k);
        }
      }
      return Ok(decision);
    }

    /** The lease's ceiling, checked after the runs; it is named only when no run was short. */
    method DecideLease(r: Request, runsDecision: Decision) returns (res: Result<Decision, Error>)
      ensures LeaseDecided(Now(), r, runsDecision, res)
    {
      var decision := runsDecision;
      if r.lease.Some? {
        var lease := r.lease.value;
        if lease !in leases {
          return Err(NotFound);
        }
        var spent := Total(holds, LeaseSpentBy(settlements, ledger, lease));
        var held := Total(holds, LeaseHeldBy(lease));
        if !Summable(spent, held) {
          return Err(Overflow);
        }
        var ceiling := leases[lease].ceiling;
        if ceiling > 0 {
          var remaining := Remaining(ceiling, spent, held);
          if r.amount > remaining && !decision.wouldBlock {
            decision := Decision(false, true, decision.run, ceiling, spent, held, r.amount, remaining,
                                 r.amount - remaining);
          }
        }
      }
      return Ok(decision);
    }

    /** One decision over the chain, then the lease; the hold goes in if the decision allows it. */
    method TryReserve(r: Request, enforce: bool) returns (res: Result<Decision, Error>)
      requires Valid()
      modifies this
      ensures Valid()
      ensures Integrity(old(Now())) && Reserved(old(Now()), r, enforce, res, Now())
    {
      hide Safe, Integrity, RunsDecided, LeaseDecided, Decided, Decidable, ReserveFails;
      ghost var s := Now();
      SafeIsForest(digest, s);
      if r.status != Pending {
        FailsEarly(s, r, enforce);
        return Err(Conflict);
      }
      if r.run !in runs {
        FailsEarly(s, r, enforce);
        return Err(NotFound);
      }
      res := DecideRuns(r);
      if res.Err? {
        RunsFail(s, r, enforce, res);
        return;
      }
      ghost var runsRes := res;
      res := DecideLease(r, res.value);
      if res.Err? {
        LeaseFails(s, r, enforce, runsRes, res);
        return;
      }
      var decision := res.value.(allowed := !enforce || !res.value.wouldBlock);
      DecisionsCompose(s, r, enforce, runsRes, res, decision);
      if decision.allowed {
        if r.amount < 0 || Locate(holds, r.id).Some? {
          InsertFails(s, r, enforce, decision);
          return Err(Conflict);
        }
        var hold := Hold(r.id, r.run, r.lease, r.amount, Pending, r.expiresAt);
        DecidedHasRoom(digest, s, r, enforce, decision);
        Commit(digest, s, NewHold(hold, !decision.wouldBlock));
        holds := holds + [hold];
        if decision.wouldBlock {
          waivers := waivers + [Waiver(r.run, r.lease, r.amount)];
        }
      }
      return Ok(decision);
    }

    /** A snapshot of every level, the nearest run that blocks spending and the nearest that limits it most. */
    method BudgetStatus(run: Id) returns (res: Result<Status, Error>)
      requires Valid()
      ensures Forest(runs) && StatusOf(Now(), run, res)
    {
      hide Safe, Integrity, Spent, Held, Subtree, Reported;
      SafeIsForest(digest, Now());
      if run !in runs {
        return Err(NotFound);
      }
      var chain := Chain(runs, run);
      var result := Status(run, runs[run].status, true, None, true, 0, None, []);
      ReportedStart(Now(), chain, result);
      for k := 0 to |chain|
        invariant Reported(Now(), chain, k, result)
        invariant forall j :: 0 <= j < k ==> !Unsummable(Now(), chain, j)
        invariant result.run == run && result.status == runs[run].status
      {
        var n := runs[chain[k]];
        var usage := SubtreeUsage(chain[k]);
        if usage.Err? {
          assert Unsummable(Now(), chain, k);
          return Err(Overflow);
        }
        var (spent, held) := usage.value;
        ghost var before := result;
        var level := Level(chain[k], n.status, n.budget, spent, held, 0, n.budget == 0);
        if n.status != Active && result.spendAllowed {
          result := result.(spendAllowed := false, blockingRun := Some(chain[k]));
        }
        if n.budget > 0 {
          level := level.(remaining := Remaining(n.budget, spent, held));
          if result.unlimited || level.remaining < result.effectiveRemaining {
            result := result.(unlimited := false, effectiveRemaining := level.remaining, limitingRun := Some(chain[k]));
          }
        }
        result := result.(levels := result.levels + [level]);
        ReportedStep(Now(), chain, k, before, result);
      }
      return Ok(result);
    }

    /** Only a pending hold can be resolved; resolving twice is a conflict. */
    method ResolveReservation(id: Id, status: HoldStatus) returns (res: Result<(), Error>)
      requires Valid()
      modifies this
      ensures Valid()
      ensures status == Pending ==> res == Err(Conflict)
      ensures status != Pending && Locate(old(holds), id) == None ==> res == Err(NotFound)
      ensures status != Pending && Locate(old(holds), id).Some? ==>
        res == if old(holds)[Locate(old(holds), id).value].status == Pending then Ok(()) else Err(Conflict)
      ensures Now() == if res.Ok? then Resolve(old(Now()), Locate(old(holds), id).value, status) else old(Now())
    {
      hide Safe, Integrity;
      if status == Pending {
        return Err(Conflict);
      }
      var located := Locate(holds, id);
      if located == None {
        return Err(NotFound);
      }
      var i := located.value;
      if holds[i].status != Pending {
        return Err(Conflict);
      }
      Commit(digest, Now(), Resolution(i, status));
      holds := holds[i := holds[i].(status := status)];
      return Ok(());
    }

    /** Reclaims every overdue pending hold and counts them. */
    method ExpirePendingReservations(now: Instant) returns (count: nat)
      requires Valid()
      modifies this
      ensures Valid() && Now() == Sweep(old(Now()), now)
      ensures count == |Differing(old(holds), holds)|
    {
      hide Safe, Integrity;
      count := Total(holds, Overdue(now));
      Commit(digest, Now(), Sweeping(now));
      ghost var s := Now();
      var rows := holds;
      holds := seq(|rows|, i requires 0 <= i < |rows| => Swept(rows[i], now));
      assert holds == Sweep(s, now).holds;
      OverdueDiffer(rows, holds, now);
    }

    /** The row that seals an entry onto the head, or why it cannot be inserted. */
    method SealNext(e: Ledger.Entry, now: Ledger.Time) returns (res: Result<Ledger.Entry, Error>)
      requires Ledger.InRange(e)
      ensures res == if Appendable(digest, Now(), e, now) then Ok(SealedEntry(digest, ledger, e, now))
                     else Err(AppendFault(digest, Now(), e, now))
    {
      hide Ledger.Seal, Ledger.ItemizedUsage;
      if !Ledger.EntryOk(e) {
        return Err(Invalid);
      }
      var prev := Ledger.GENESIS_HASH;
      var headSeq := 0;
      if ledger != [] {
        headSeq, prev := |ledger|, ledger[|ledger| - 1].hash;
      }
      var sealed := Ledger.Seal(digest, Ledger.Prepared(e, now, headSeq + 1), prev);
      if !Billing.UsageOk(Ledger.ItemizedUsage(sealed)) {
        return Err(Invalid);
      }
      if e.inputTokens < 0 || e.outputTokens < 0 || e.cost < 0 {
        return Err(Conflict);
      }
      if exists i :: 0 <= i < |ledger| && ledger[i].hash == sealed.hash {
        return Err(Conflict);
      }
      if e.run !in runs {
        return Err(NotFound);
      }
      return Ok(sealed);
    }

    /** A charge outside any reservation. */
    method AppendLedger(e: Ledger.Entry, now: Ledger.Time) returns (res: Result<Ledger.Entry, Error>)
      requires Valid() && Ledger.InRange(e)
      modifies this
      ensures Valid() && Appended(digest, old(Now()), e, now, res, Now())
    {
      hide Safe, Integrity, Appendable, SealedEntry, AppendFault, Enabled, AppendUnreserved, Ledger.RowOf,
        Ledger.InRange;
      ghost var s := Now();
      SafeIsForest(digest, s);
      res := SealNext(e, now);
      if res.Ok? {
        AppendEnabled(digest, s, e, now);
        var row := Ledger.RowOf(res.value);
        Commit(digest, s, Appending(row));
        ledger := ledger + [row];
        waivers := waivers + [Waiver(row.run, None, row.cost)];
        AppendParts(s, row);
      }
    }

    /** Appends the charge for hold i, links it and, if the hold is pending, resolves it. */
    method ChargeHold(i: nat, e: Ledger.Entry, now: Ledger.Time) returns (res: Result<Ledger.Entry, Error>)
      requires Valid() && Ledger.InRange(e) && i < |holds| && holds[i].id !in settlements
      requires e.run == holds[i].run && holds[i].status in {Pending, Expired}
      modifies this
      ensures Valid()
      ensures i < |old(Now()).holds| && ChargedAt(digest, old(Now()), i, e, now, res, Now())
    {
      hide Safe, Integrity, Appendable, SealedEntry, AppendFault, Charge, Enabled, Ledger.RowOf, Ledger.InRange;
      ghost var s := Now();
      SafeIsForest(digest, s);
      res := SealNext(e, now);
      if res.Ok? {
        ChargeEnabled(digest, s, i, e, now);
        var row, hold := Ledger.RowOf(res.value), holds[i];
        Commit(digest, s, Charging(i, row, hold.status == Pending));
        ChargeParts(s, i, row, hold.status == Pending);
        ledger := ledger + [row];
        settlements := settlements[hold.id := res.value.seqNo];
        if hold.status == Pending {
          holds := holds[i := hold.(status := Settled)];
        }
        waivers := waivers + [Waiver(hold.run, hold.lease, Overrun(hold, row.cost))];
        assert Now() == Charge(s, i, row, hold.status == Pending);
      }
    }

    /** Charges a hold once: a repeated settlement returns the entry the first one sealed. */
    method SettleReservation(id: Id, e: Ledger.Entry, now: Ledger.Time) returns (res: Result<Ledger.Entry, Error>)
      requires Valid() && Ledger.InRange(e)
      modifies this
      ensures Valid()
      ensures Integrity(old(Now())) && Charged(digest, old(Now()), id, e, now, res, Now())
    {
      hide Safe, ChargedAt, Ledger.Scan, BudgetSafe, LeasesSafe;
      SafeIsForest(digest, Now());
      if id in settlements {
        var back := Ledger.Scan(ledger[settlements[id] - 1]);
        return if back.Some? then Ok(back.value) else Err(Invalid);
      }
      var located := Locate(holds, id);
      if located == None {
        return Err(NotFound);
      }
      var i := located.value;
      if e.run != holds[i].run {
        return Err(Conflict);
      }
      if holds[i].status != Pending && holds[i].status != Expired {
        return Err(Conflict);
      }
      res := ChargeHold(i, e, now);
    }
  }
}
