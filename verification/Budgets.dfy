/** Budget decisions: what fits, what is short, and which changes keep every budget and lease safe. */
module Budgets {
  import opened Wrappers
  import opened Hierarchy
  import opened Tables
  import opened Changes
  import Ledger

  /** What is left of a ceiling, taken off in two steps so that no intermediate value is negative. */
  function Remaining(ceiling: nat, spent: nat, held: nat): (left: nat)
    ensures left == if ceiling >= spent + held then ceiling - spent - held else 0
  {
    var afterSpend := if spent >= ceiling then 0 else ceiling - spent;
    if held >= afterSpend then 0 else afterSpend - held
  }

  function RunRemaining(s: State, id: Id): nat
    requires Forest(s.runs) && id in s.runs
  {
    Remaining(s.runs[id].budget, Spent(s, id), Held(s, id))
  }

  function LeaseRemaining(s: State, lease: Id): nat
    requires lease in s.leases
  {
    Remaining(s.leases[lease].ceiling, LeaseSpent(s, lease), LeaseHeld(s, lease))
  }

  /** The run has a budget that cannot cover the amount. */
  predicate Short(s: State, id: Id, amount: int)
    requires Forest(s.runs) && id in s.runs
  {
    s.runs[id].budget > 0 && amount > RunRemaining(s, id)
  }

  predicate LeaseShort(s: State, lease: Option<Id>, amount: int)
    requires lease.Some? ==> lease.value in s.leases
  {
    lease.Some? && s.leases[lease.value].ceiling > 0 && amount > LeaseRemaining(s, lease.value)
  }

  ghost predicate ChainActive(runs: Runs, id: Id)
    requires Forest(runs) && id in runs
  {
    forall k :: 0 <= k < |Chain(runs, id)| ==> runs[Chain(runs, id)[k]].status == Active
  }

  /** The level's load leaves room for the amount. */
  ghost predicate Room(s: State, id: Id, amount: int)
    requires Forest(s.runs) && id in s.runs
  {
    s.runs[id].budget > 0 ==> Load(s, id) + amount <= s.runs[id].budget
  }

  ghost predicate RoomOnChain(s: State, id: Id, amount: int)
    requires Forest(s.runs) && id in s.runs
  {
    forall k :: 0 <= k < |Chain(s.runs, id)| ==> Room(s, Chain(s.runs, id)[k], amount)
  }

  ghost predicate LeaseRoom(s: State, lease: Option<Id>, amount: int) {
    lease.Some? && lease.value in s.leases && s.leases[lease.value].ceiling > 0
    ==> LeaseLoad(s, lease.value) + amount <= s.leases[lease.value].ceiling
  }

  /** A level that is not short has room, whatever was waived there before. */
  lemma NotShortHasRoom(s: State, id: Id, amount: int)
    requires Forest(s.runs) && id in s.runs && BudgetSafe(s) && !Short(s, id, amount)
    ensures Room(s, id, amount)
  {
  }

  lemma NotShortHasLeaseRoom(s: State, lease: Option<Id>, amount: int)
    requires lease.Some? ==> lease.value in s.leases
    requires LeasesSafe(s) && !LeaseShort(s, lease, amount)
    ensures LeaseRoom(s, lease, amount)
  {
  }

  /** One committed transaction's effect on the tables. */
  datatype Change =
    | NewRun(id: Id, run: Run)
    | Closing(id: Id)
    | NewLease(leaseId: Id, lease: Lease)
    | NewHold(hold: Hold, fits: bool)
    | Resolution(i: nat, status: HoldStatus)
    | Sweeping(now: Instant)
    | Appending(row: Ledger.Row)
    | Charging(i: nat, row: Ledger.Row, resolve: bool)

  ghost predicate Sealed(digest: string -> string, ledger: seq<Ledger.Row>, row: Ledger.Row) {
    Ledger.ChainOk(digest, ledger) ==> Ledger.ChainOk(digest, ledger + [row])
  }

  ghost predicate Enabled(digest: string -> string, s: State, c: Change)
    requires Integrity(s)
  {
    match c
    case NewRun(id, run) =>
      && id !in s.runs && run.row == |s.runs|
      && (run.parent.Some? ==> run.parent.value in s.runs && s.runs[run.parent.value].principal == run.principal)
    case Closing(id) => id in s.runs
    case NewLease(id, lease) => id !in s.leases && lease.run in s.runs && ChainActive(s.runs, lease.run)
    case NewHold(hold, fits) =>
      && Locate(s.holds, hold.id) == None && hold.status == Pending && hold.run in s.runs
      && (hold.lease.Some? ==> hold.lease.value in s.leases)
      && ChainActive(s.runs, hold.run)
      && (fits ==> RoomOnChain(s, hold.run, hold.amount) && LeaseRoom(s, hold.lease, hold.amount))
    case Resolution(i, status) => i < |s.holds| && s.holds[i].status == Pending && status != Pending
    case Sweeping(now) => true
    case Appending(row) => row.run in s.runs && Sealed(digest, s.ledger, row)
    case Charging(i, row, resolve) =>
      && i < |s.holds| && s.holds[i].id !in s.settlements && row.run == s.holds[i].run
      && Sealed(digest, s.ledger, row)
      && (s.holds[i].status == Pending ==> resolve) && (resolve || s.holds[i].status == Expired)
  }

  predicate CanApply(s: State, c: Change) {
    (c.Closing? ==> c.id in s.runs) && (c.Resolution? || c.Charging? ==> c.i < |s.holds|)
  }

  function Apply(s: State, c: Change): State
    requires CanApply(s, c)
  {
    match c
    case NewRun(id, run) => InsertRun(s, id, run)
    case Closing(id) => CloseRow(s, id)
    case NewLease(id, lease) => InsertLease(s, id, lease)
    case NewHold(hold, fits) => InsertHold(s, hold, fits)
    case Resolution(i, status) => Resolve(s, i, status)
    case Sweeping(now) => Sweep(s, now)
    case Appending(row) => AppendUnreserved(s, row)
    case Charging(i, row, resolve) => Charge(s, i, row, resolve)
  }

  lemma ChangeKeepsIntegrity(digest: string -> string, s: State, c: Change)
    requires Integrity(s) && Enabled(digest, s, c)
    ensures Integrity(Apply(s, c))
  {
    hide LinksOk, UniqueHolds, HoldsReferTo, Forest;
    match c
    case NewRun(id, run) => InsertRunKeepsIntegrity(s, id, run);
    case Closing(id) => CloseRunKeepsIntegrity(s, id);
    case NewLease(id, lease) => InsertLeaseKeepsIntegrity(s, id, lease);
    case NewHold(hold, fits) => InsertHoldKeepsIntegrity(s, hold, fits);
    case Resolution(i, status) => RestatusKeepsIntegrity(s, Apply(s, c));
    case Sweeping(now) => RestatusKeepsIntegrity(s, Apply(s, c));
    case Appending(row) => AppendUnreservedKeepsIntegrity(s, row);
    case Charging(i, row, resolve) => ChargeKeepsIntegrity(s, i, row, resolve);
  }

  ghost function LoadGain(s: State, c: Change, id: Id): nat
    requires Forest(s.runs) && id in s.runs
  {
    if c.NewHold? && c.fits && c.hold.run in Subtree(s.runs, id) then c.hold.amount else 0
  }

  /** Only a fitting new hold raises loads, and only on the levels whose subtree it falls in. */
  lemma LoadBound(digest: string -> string, s: State, c: Change, id: Id)
    requires Integrity(s) && Enabled(digest, s, c) && id in s.runs
    ensures Integrity(Apply(s, c)) && Extends(s.runs, Apply(s, c).runs)
    ensures Load(Apply(s, c), id) <= Load(s, id) + LoadGain(s, c, id)
  {
    hide LinksOk, UniqueHolds, HoldsReferTo, LoadOf;
    ChangeKeepsIntegrity(digest, s, c);
    var tree := Subtree(s.runs, id);
    match c
    case NewRun(_, run) =>
      InsertRunKeepsForest(s.runs, c.id, run);
      LoadIsStable(s, Apply(s, c), id);
    case Closing(_) =>
      CloseRunKeepsForest(s.runs, c.id);
      LoadIsStable(s, Apply(s, c), id);
    case NewLease(_, lease) => InsertLeaseLoad(s, c.leaseId, lease, tree);
    case NewHold(hold, fits) => InsertHoldLoad(s, hold, fits, tree);
    case Resolution(i, status) => ResolveLoad(s, i, status, tree);
    case Sweeping(now) => SweepLoad(s, now, tree);
    case Appending(row) => AppendUnreservedLoad(s, row, tree);
    case Charging(i, row, resolve) => ChargeLoad(s, i, row, resolve, tree);
  }

  lemma InsertLeaseLoad(s: State, id: Id, lease: Lease, tree: set<Id>)
    ensures LoadOf(InsertLease(s, id, lease), tree) == LoadOf(s, tree)
  {
  }

  /** No change takes a budgeted run past its budget, at any level of any hierarchy. */
  lemma ChangeKeepsBudgets(digest: string -> string, s: State, c: Change)
    requires Integrity(s) && Enabled(digest, s, c) && BudgetSafe(s)
    ensures Integrity(Apply(s, c)) && BudgetSafe(Apply(s, c))
  {
    hide LinksOk, UniqueHolds, HoldsReferTo, LoadOf;
    ChangeKeepsIntegrity(digest, s, c);
    var t := Apply(s, c);
    forall id | id in t.runs && t.runs[id].budget > 0
      ensures Load(t, id) <= t.runs[id].budget
    {
      if id in s.runs {
        LoadBound(digest, s, c, id);
        if LoadGain(s, c, id) > 0 {
          WalksAreDual(s.runs, id, c.hold.run);
          var k :| 0 <= k < |Chain(s.runs, c.hold.run)| && Chain(s.runs, c.hold.run)[k] == id;
          assert Room(s, id, c.hold.amount);
        }
      } else {
        InsertRunKeepsForest(s.runs, c.id, c.run);
        NewRunIsUnloaded(s, c.id, c.run);
      }
    }
  }

  ghost function LeaseGain(c: Change, lease: Id): nat {
    if c.NewHold? && c.fits && c.hold.lease == Some(lease) then c.hold.amount else 0
  }

  lemma LeaseLoadBound(digest: string -> string, s: State, c: Change, lease: Id)
    requires Integrity(s) && Enabled(digest, s, c)
    ensures LeaseLoad(Apply(s, c), lease) <= LeaseLoad(s, lease) + LeaseGain(c, lease)
  {
    hide LeaseLoad, Forest, HoldsReferTo, LinkedCost, Charge, InsertHold, AppendUnreserved, Resolve;
    match c
    case NewRun(_, run) => LeaseLoadIgnoresRuns(s, Apply(s, c), lease);
    case Closing(_) => LeaseLoadIgnoresRuns(s, Apply(s, c), lease);
    case NewLease(_, _) => LeaseLoadIgnoresRuns(s, Apply(s, c), lease);
    case NewHold(hold, fits) =>
      InsertHoldKeepsIntegrity(s, hold, fits);
      InsertHoldLeaseLoad(s, hold, fits, lease);
    case Resolution(i, status) => ResolveLeaseLoad(s, i, status, lease);
    case Sweeping(now) => SweepLeaseLoad(s, now, lease);
    case Appending(row) => AppendUnreservedLeaseLoad(s, row, lease);
    case Charging(i, row, resolve) => ChargeLeaseLoad(s, i, row, resolve, lease);
  }

  lemma LeaseLoadIgnoresRuns(s: State, t: State, lease: Id)
    requires t == s.(runs := t.runs, leases := t.leases)
    ensures LeaseLoad(t, lease) == LeaseLoad(s, lease)
  {
  }

  /** No change takes a lease past its ceiling. */
  lemma ChangeKeepsLeases(digest: string -> string, s: State, c: Change)
    requires Integrity(s) && Enabled(digest, s, c) && LeasesSafe(s)
    ensures LeasesSafe(Apply(s, c))
  {
    hide LeaseLoad, Forest, LinksOk, HoldsReferTo, UniqueHolds;
    var t := Apply(s, c);
    forall id | id in t.leases && t.leases[id].ceiling > 0
      ensures LeaseLoad(t, id) <= t.leases[id].ceiling
    {
      LeaseLoadBound(digest, s, c, id);
      if id !in s.leases {
        NewLeaseIsUnloaded(s, id, c.lease);
      }
    }
  }

  ghost predicate Safe(digest: string -> string, s: State) {
    Integrity(s) && BudgetSafe(s) && LeasesSafe(s) && Ledger.ChainOk(digest, s.ledger)
  }

  lemma ChangeKeepsSafe(digest: string -> string, s: State, c: Change)
    requires Safe(digest, s) && Enabled(digest, s, c)
    ensures Safe(digest, Apply(s, c))
  {
    hide Integrity, BudgetSafe, LeasesSafe, Ledger.ChainOk;
    ChangeKeepsIntegrity(digest, s, c);
    ChangeKeepsBudgets(digest, s, c);
    ChangeKeepsLeases(digest, s, c);
  }
}
