/** The store's five tables, what a budget query reads from them, and their integrity constraints. */
module Tables {
  import opened Wrappers
  import opened Sums
  import opened Hierarchy
  import Ledger

  datatype HoldStatus = Pending | Settled | Released | Expired

  /** A row of the reservations table; the column check makes its amount non-negative. */
  datatype Hold = Hold(id: Id, run: Id, lease: Option<Id>, amount: nat, status: HoldStatus, expiresAt: Instant)

  datatype Lease = Lease(run: Id, tokenHash: string, ceiling: nat)

  /**
   * Spend the code lets past a budget on purpose: an observe-mode hold that did not fit, the part of a
   * charge above its hold, a charge whose hold no longer counted, a direct ledger append. It is
   * bookkeeping of the proof, not a table.
   */
  datatype Waiver = Waiver(run: Id, lease: Option<Id>, amount: nat)

  datatype State = State(
    runs: Runs, leases: map<Id, Lease>, holds: seq<Hold>, settlements: map<Id, nat>,
    ledger: seq<Ledger.Row>, waivers: seq<Waiver>)

  const EMPTY := State(map[], map[], [], map[], [], [])

  // Sums over a set of runs

  function SpentBy(tree: set<Id>): Ledger.Row -> nat {
    (row: Ledger.Row) => if row.run in tree then row.cost else 0
  }

  function HeldBy(tree: set<Id>): Hold -> nat {
    (hold: Hold) => if hold.status == Pending && hold.run in tree then hold.amount else 0
  }

  function WaivedBy(tree: set<Id>): Waiver -> nat {
    (waiver: Waiver) => if waiver.run in tree then waiver.amount else 0
  }

  /** Settled spend of a run and all its descendants. */
  function Spent(s: State, id: Id): nat
    requires Forest(s.runs) && id in s.runs
  {
    Total(s.ledger, SpentBy(Subtree(s.runs, id)))
  }

  /** Pending holds of a run and all its descendants. */
  function Held(s: State, id: Id): nat
    requires Forest(s.runs) && id in s.runs
  {
    Total(s.holds, HeldBy(Subtree(s.runs, id)))
  }

  ghost function Waived(s: State, id: Id): nat
    requires Forest(s.runs) && id in s.runs
  {
    Total(s.waivers, WaivedBy(Subtree(s.runs, id)))
  }

  ghost function LoadOf(s: State, tree: set<Id>): int {
    Total(s.ledger, SpentBy(tree)) + Total(s.holds, HeldBy(tree)) - Total(s.waivers, WaivedBy(tree))
  }

  /** What counts against a run's budget: spend and holds over its subtree, less what was waived there. */
  ghost function Load(s: State, id: Id): int
    requires Forest(s.runs) && id in s.runs
  {
    LoadOf(s, Subtree(s.runs, id))
  }

  ghost predicate BudgetSafe(s: State)
    requires Forest(s.runs)
  {
    forall id :: id in s.runs && s.runs[id].budget > 0 ==> Load(s, id) <= s.runs[id].budget
  }

  ghost predicate NothingWaived(s: State) {
    forall i :: 0 <= i < |s.waivers| ==> s.waivers[i].amount == 0
  }

  // Sums over a lease

  function LinkedCost(settlements: map<Id, nat>, ledger: seq<Ledger.Row>, id: Id): nat {
    if id in settlements && 0 < settlements[id] <= |ledger| then ledger[settlements[id] - 1].cost else 0
  }

  function LeaseSpentBy(settlements: map<Id, nat>, ledger: seq<Ledger.Row>, lease: Id): Hold -> nat {
    (hold: Hold) => if hold.lease == Some(lease) then LinkedCost(settlements, ledger, hold.id) else 0
  }

  function LeaseHeldBy(lease: Id): Hold -> nat {
    (hold: Hold) => if hold.status == Pending && hold.lease == Some(lease) then hold.amount else 0
  }

  function LeaseWaivedBy(lease: Id): Waiver -> nat {
    (waiver: Waiver) => if waiver.lease == Some(lease) then waiver.amount else 0
  }

  /** The ledger cost joined to the lease's holds through their settlements. */
  function LeaseSpent(s: State, lease: Id): nat {
    Total(s.holds, LeaseSpentBy(s.settlements, s.ledger, lease))
  }

  function LeaseHeld(s: State, lease: Id): nat {
    Total(s.holds, LeaseHeldBy(lease))
  }

  ghost function LeaseLoad(s: State, lease: Id): int {
    LeaseSpent(s, lease) + LeaseHeld(s, lease) - Total(s.waivers, LeaseWaivedBy(lease))
  }

  ghost predicate LeasesSafe(s: State) {
    forall id :: id in s.leases && s.leases[id].ceiling > 0 ==> LeaseLoad(s, id) <= s.leases[id].ceiling
  }

  // Integrity

  /** The row of the reservation with this id. */
  function Locate(holds: seq<Hold>, id: Id): (r: Option<nat>)
    ensures r.Some? ==> r.value < |holds| && holds[r.value].id == id
    ensures r == None ==> forall i :: 0 <= i < |holds| ==> holds[i].id != id
  {
    if holds == [] then None
    else if holds[|holds| - 1].id == id then Some(|holds| - 1)
    else Locate(holds[..|holds| - 1], id)
  }

  ghost predicate UniqueHolds(holds: seq<Hold>) {
    forall i, j :: 0 <= i < j < |holds| ==> holds[i].id != holds[j].id
  }

  ghost predicate HoldsReferTo(holds: seq<Hold>, runs: Runs, leases: map<Id, Lease>) {
    forall i :: 0 <= i < |holds| ==>
      holds[i].run in runs && (holds[i].lease.Some? ==> holds[i].lease.value in leases)
  }

  /** A settlement joins a hold that was settled or had expired to a ledger row of the same run. */
  ghost predicate LinkOk(s: State, i: int)
    requires 0 <= i < |s.holds| && s.holds[i].id in s.settlements
  {
    var seqNo := s.settlements[s.holds[i].id];
    && 0 < seqNo <= |s.ledger|
    && s.holds[i].status in {Settled, Expired}
    && s.ledger[seqNo - 1].run == s.holds[i].run
  }

  ghost predicate HoldLinksOk(s: State) {
    forall i :: 0 <= i < |s.holds| && s.holds[i].id in s.settlements ==> LinkOk(s, i)
  }

  ghost predicate LinksRefer(holds: seq<Hold>, settlements: map<Id, nat>, entries: nat) {
    forall id :: id in settlements ==> Locate(holds, id).Some? && 0 < settlements[id] <= entries
  }

  /** The unique key on ledger_seq: no ledger row is joined to two reservations. */
  ghost predicate LinksDistinct(settlements: map<Id, nat>) {
    forall a, b :: a in settlements && b in settlements && a != b ==> settlements[a] != settlements[b]
  }

  ghost predicate LinksOk(s: State) {
    HoldLinksOk(s) && LinksRefer(s.holds, s.settlements, |s.ledger|) && LinksDistinct(s.settlements)
  }

  ghost predicate Integrity(s: State) {
    && Forest(s.runs)
    && (forall id :: id in s.leases ==> s.leases[id].run in s.runs)
    && UniqueHolds(s.holds) && HoldsReferTo(s.holds, s.runs, s.leases)
    && (forall i :: 0 <= i < |s.ledger| ==> s.ledger[i].run in s.runs)
    && (forall i :: 0 <= i < |s.waivers| ==> s.waivers[i].run in s.runs)
    && (forall i :: 0 <= i < |s.waivers| ==> (s.waivers[i].lease.Some? ==> s.waivers[i].lease.value in s.leases))
    && LinksOk(s)
  }

  lemma LocateIs(holds: seq<Hold>, i: nat)
    requires UniqueHolds(holds) && i < |holds|
    ensures Locate(holds, holds[i].id) == Some(i)
  {
    var r := Locate(holds, holds[i].id);
  }
}
